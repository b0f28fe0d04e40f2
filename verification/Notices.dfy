/** Who hears of the end of a source: each admission is owed or delivered at most one notice, and
    none once the application itself closed it. */
module Notices {
  import opened Fips180
  import opened Protocol
  import opened Complaints
  import opened Core
  import opened Machine
  import opened Streams
  import opened Jobs
  import opened Threads
  import opened Accounts
  import opened Transactions
  import opened Runs

  /** How often the owner of an admission was or will be notified. */
  function Owed(history: History, ticket: nat): nat {
    multiset(history.notices)[ticket] + history.pending[ticket]
  }

  ghost predicate NoticesOk(sys: System) {
    && (forall t: nat :: Owed(sys.history, t) <= 1 && (t in sys.history.closedLocally ==> Owed(sys.history, t) == 0))
    && (forall t: nat :: Owed(sys.history, t) > 0 || t in sys.history.closedLocally ==>
          t < sys.core.nextTicket && t !in LiveTickets(sys.core))
  }

  /** A step ends the notices of an admission only by taking its source off the live table. */
  ghost predicate NoticeMoves(sys: System, r: System) {
    && sys.core.nextTicket <= r.core.nextTicket
    && (forall t: nat :: t in LiveTickets(r.core) ==>
          t in LiveTickets(sys.core) || sys.core.nextTicket <= t < r.core.nextTicket)
    && forall t: nat ::
         Undisturbed(sys.history, r.history, t) || (Leaves(sys, r, t) && EndSettled(sys.history, r.history, t))
  }

  predicate Undisturbed(before: History, after: History, t: nat) {
    Owed(after, t) == Owed(before, t) && (t in after.closedLocally <==> t in before.closedLocally)
  }

  predicate EndSettled(before: History, after: History, t: nat) {
    || (Owed(after, t) == Owed(before, t) + 1 && (t in after.closedLocally ==> t in before.closedLocally))
    || Owed(after, t) == Owed(before, t)
  }

  predicate Leaves(sys: System, r: System, t: nat) {
    t in LiveTickets(sys.core) && t !in LiveTickets(r.core) && t < sys.core.nextTicket
  }

  lemma NoticesMoved(sys: System, r: System)
    requires NoticesOk(sys) && NoticeMoves(sys, r)
    ensures NoticesOk(r)
  {
    hide Owed, LiveTickets;
    forall t: nat
      ensures Owed(r.history, t) <= 1 && (t in r.history.closedLocally ==> Owed(r.history, t) == 0)
      ensures Owed(r.history, t) > 0 || t in r.history.closedLocally ==>
                t < r.core.nextTicket && t !in LiveTickets(r.core)
    {
      assert Owed(sys.history, t) <= 1;
      assert Undisturbed(sys.history, r.history, t) || (Leaves(sys, r, t) && EndSettled(sys.history, r.history, t));
    }
  }

  /** The live sources that stay are the same admissions, and nothing is owed or closed. */
  lemma FewerLive(sys: System, r: System)
    requires LiveKept(sys.core, r.core) && sys.core.nextTicket <= r.core.nextTicket
    requires r.history.notices == sys.history.notices && r.history.pending == sys.history.pending
    requires r.history.closedLocally == sys.history.closedLocally
    ensures NoticeMoves(sys, r)
  {
    forall t: nat | t in LiveTickets(r.core) ensures t in LiveTickets(sys.core) {
      var id :| id in r.core.sources.live && r.core.sources.live[id].ticket == t;
      assert sys.core.sources.live[id].ticket == t;
    }
    assert forall t: nat :: Undisturbed(sys.history, r.history, t);
  }

  /** A live admission has a ticket of its own, given out before. */
  lemma TicketsApart(sys: System, id: string)
    requires Told(sys.core, sys.history) && id in sys.core.sources.live
    ensures sys.core.sources.live[id].ticket < sys.core.nextTicket
    ensures forall k :: k in sys.core.sources.live && k != id ==>
            sys.core.sources.live[k].ticket != sys.core.sources.live[id].ticket
  {
    hide StoryOk, LiveTold, ClosedTold;
    var live, stories := sys.core.sources.live, sys.history.stories;
    LiveName(id, live[id], stories[live[id].ticket]);
    forall k | k in live && k != id ensures live[k].ticket != live[id].ticket {
      LiveName(k, live[k], stories[live[k].ticket]);
    }
  }

  /** One source leaves the live table, notified or closed by the application, not both. */
  lemma OneLeaves(sys: System, r: System, id: string)
    requires Told(sys.core, sys.history) && id in sys.core.sources.live
    requires r.core.sources.live == sys.core.sources.live - {id} && r.core.nextTicket == sys.core.nextTicket
    requires r.history.notices == sys.history.notices
    requires var t := sys.core.sources.live[id].ticket;
             || (r.history.closedLocally == sys.history.closedLocally
                 && (r.history.pending == sys.history.pending
                     || r.history.pending == sys.history.pending + multiset({t})))
             || (r.history.pending == sys.history.pending && r.history.closedLocally == sys.history.closedLocally + {t})
    ensures NoticeMoves(sys, r)
  {
    var ticket := sys.core.sources.live[id].ticket;
    TicketsApart(sys, id);
    forall t: nat | t in LiveTickets(r.core) ensures t in LiveTickets(sys.core) && t != ticket {
      var k :| k in r.core.sources.live && r.core.sources.live[k].ticket == t;
      assert sys.core.sources.live[k].ticket == t;
    }
    forall t: nat
      ensures Undisturbed(sys.history, r.history, t) || (Leaves(sys, r, t) && EndSettled(sys.history, r.history, t))
    {
    }
  }

  /** Retiring a pair or deactivating owes every live source one notice. */
  lemma AllLeave(sys: System, r: System)
    requires Told(sys.core, sys.history) && OwesAll(sys, r) && sys.core.nextTicket == r.core.nextTicket
    requires r.history.notices == sys.history.notices && r.history.closedLocally == sys.history.closedLocally
    ensures NoticeMoves(sys, r)
  {
    hide Told;
    forall t: nat
      ensures Undisturbed(sys.history, r.history, t) || (Leaves(sys, r, t) && EndSettled(sys.history, r.history, t))
    {
      if t in LiveTickets(sys.core) {
        var id :| id in sys.core.sources.live && sys.core.sources.live[id].ticket == t;
        TicketsApart(sys, id);
      }
    }
  }

  lemma HandleNotices(lim: Limits, sys: System, frame: HostFrame, expired: bool, wire: seq<Byte>)
    requires Told(sys.core, sys.history)
    ensures NoticeMoves(sys, Handle(lim, sys, frame, expired, wire))
  {
    hide NoticeMoves, Told, ReaderFrame, HandleOpen, HandleCancel, EnqueueDispatch, GrantSourceCredit,
      AcknowledgeTerminal, Tickets, LiveKept;
    var r := Handle(lim, sys, frame, expired, wire);
    match frame
    case WorkRequest(_) => SameLive(sys.core, r.core); FewerLive(sys, r);
    case OpenRequest(job) => OpenNotices(lim, sys, job, expired, wire);
    case CreditFrame(id, acknowledged, grant) =>
      CreditKept(sys.core, id, acknowledged, grant);
      SameLive(sys.core, sys.core);
      FewerLive(sys, r);
    case CancelFrame(identity, reason) => CancelNotices(lim, sys, identity, reason, wire);
    case AckFrame(_, _) => SameLive(sys.core, r.core); FewerLive(sys, r);
    case EmptyFrame => SameLive(sys.core, r.core); FewerLive(sys, r);
    case HostError => SameLive(sys.core, r.core); FewerLive(sys, r);
  }

  lemma SameLive(s: State, t: State)
    requires t.sources.live == s.sources.live
    ensures LiveKept(s, t)
  {
  }

  lemma CreditKept(s: State, id: string, acknowledged: nat, grant: Credit)
    ensures LiveKept(s, GrantSourceCredit(s, id, acknowledged, grant).0)
  {
  }

  lemma OpenNotices(lim: Limits, sys: System, job: Job, expired: bool, wire: seq<Byte>)
    ensures NoticeMoves(sys, HandleOpen(lim, sys, job, expired, wire))
  {
    hide ReaderFrame, ValidateWorkContext, JudgeSourceOpen, CommitSourceTerminal, Explain;
    var r := HandleOpen(lim, sys, job, expired, wire);
    forall t: nat | t in LiveTickets(r.core)
      ensures t in LiveTickets(sys.core) || sys.core.nextTicket <= t < r.core.nextTicket
    {
      var id :| id in r.core.sources.live && r.core.sources.live[id].ticket == t;
      assert id != job.workId && id in sys.core.sources.live ==> sys.core.sources.live[id].ticket == t;
    }
    assert forall t: nat :: Undisturbed(sys.history, r.history, t);
  }

  lemma CancelNotices(lim: Limits, sys: System, identity: Identity, reason: string, wire: seq<Byte>)
    requires Told(sys.core, sys.history)
    ensures NoticeMoves(sys, HandleCancel(lim, sys, identity, reason, wire))
  {
    hide NoticeMoves, Told, ReaderFrame, CommitSourceTerminal, PeerCancelled, Conclude;
    var r := HandleCancel(lim, sys, identity, reason, wire);
    if HandleCancellation(lim, sys.core, identity, reason, wire).1.CancelNotifies? {
      ConcludeKeeps(sys.history, sys.core.sources.live[identity.id].ticket,
          r.core.sources.closed[identity.id].frame);
      OneLeaves(sys, r, identity.id);
    } else {
      SameLive(sys.core, r.core);
      FewerLive(sys, r);
    }
  }

  lemma ConcludeKeeps(history: History, ticket: nat, frame: WorkFrame)
    ensures var told := Conclude(history, ticket, frame);
            && told.notices == history.notices && told.pending == history.pending
                && told.closedLocally == history.closedLocally
  {
  }

  lemma ReaderNotices(lim: Limits, sys: System, a: Action)
    requires Told(sys.core, sys.history)
    ensures NoticeMoves(sys, MoveInbound(lim, sys, a))
  {
    hide NoticeMoves, Told, Handle, Tickets, MoveReader, ReaderFrame, LiveKept;
    var r := MoveInbound(lim, sys, a);
    if a.ReaderMove? {
      SendNotices(lim, sys);
    } else if a.Inbound? && sys.pair == Open && sys.wire.workOpen && sys.reader == Listening && a.authentic
        && a.sequence > sys.wire.workIn {
      var heard := sys.(wire := sys.wire.(workIn := a.sequence, heard := sys.wire.heard + [a.sequence]));
      HandleNotices(lim, heard, a.frame, a.expired, a.wire);
      SameNotices(heard, sys, r);
    } else {
      SameLive(sys.core, r.core);
      FewerLive(sys, r);
    }
  }

  lemma SendNotices(lim: Limits, sys: System)
    ensures NoticeMoves(sys, MoveReader(lim, sys))
  {
    hide NoticeMoves, Tickets, QueueWork, CommitTerminal, ReaderFrame, LiveKept;
    SameLive(sys.core, MoveReader(lim, sys).core);
    FewerLive(sys, MoveReader(lim, sys));
  }

  lemma SameNotices(heard: System, sys: System, r: System)
    requires heard.core == sys.core && heard.history == sys.history && NoticeMoves(heard, r)
    ensures NoticeMoves(sys, r)
  {
    hide Owed, LiveTickets, EndSettled;
    forall t: nat
      ensures Undisturbed(sys.history, r.history, t) || (Leaves(sys, r, t) && EndSettled(sys.history, r.history, t))
    {
      assert Undisturbed(heard.history, r.history, t)
          || (Leaves(heard, r, t) && EndSettled(heard.history, r.history, t));
    }
  }

  lemma WorkerNotices(lim: Limits, sys: System, w: nat, x: WorkerInput)
    requires Told(sys.core, sys.history) && w < |sys.workers|
    ensures NoticeMoves(sys, MoveWorker(lim, sys, w, x))
  {
    hide NoticeMoves, Told, WorkerFrame, TakeJob, Triage, Validate, Announce, EndCall, Commit, Depart, ReadOpen,
      EnterOpen, EndOpen, SettleOpen, Tickets, ReleaseWorkToken, JobMoves, LiveKept;
    var r := MoveWorker(lim, sys, w, x);
    WorkerJobs(lim, sys, w, x);
    if sys.workers[w].OpenSettling? {
      SettleNotices(lim, sys, w);
    } else {
      SameLive(sys.core, r.core);
      FewerLive(sys, r);
    }
  }

  lemma SettleNotices(lim: Limits, sys: System, w: nat)
    requires Told(sys.core, sys.history) && w < |sys.workers| && sys.workers[w].OpenSettling?
    ensures NoticeMoves(sys, SettleOpen(lim, sys, w))
  {
    hide NoticeMoves, Told, WorkerFrame, QueueWork, CommitSourceTerminal, FramedBytes, LiveKept;
    var pc, r := sys.workers[w], SettleOpen(lim, sys, w);
    var result := SettleSourceOpen(lim, sys.core, pc.job, pc.decision, pc.wire);
    if result.1.OpenRefused? {
      OneLeaves(sys, r, pc.job.workId);
    } else {
      FewerLive(sys, r);
    }
  }

  lemma AppNotices(lim: Limits, sys: System, a: Action)
    requires Told(sys.core, sys.history)
    ensures NoticeMoves(sys, MoveApp(lim, sys, a))
  {
    hide NoticeMoves, Told, PublishSource, CommitSourceTerminal, LiveKept, SamePair, SameSpec, IsTypedError;
    var r := MoveApp(lim, sys, a);
    if a.Close? && r != sys {
      OneLeaves(sys, r, a.id);
    } else {
      SameLive(sys.core, sys.core);
      FewerLive(sys, r);
    }
  }

  lemma ShrinkNotices(sys: System, r: System)
    requires Told(sys.core, sys.history) && TablesShrink(sys, r)
    ensures NoticeMoves(sys, r)
  {
    hide NoticeMoves, Told, OwesAll;
    if r.history.pending == sys.history.pending {
      FewerLive(sys, r);
    } else {
      AllLeave(sys, r);
    }
  }

  /** A delivered notice is no longer pending. */
  lemma DeliverNotices(sys: System, ticket: nat)
    requires NoticesOk(sys)
    ensures NoticesOk(Deliver(sys, ticket))
  {
    hide LiveTickets;
    var r := Deliver(sys, ticket);
    assert forall t: nat :: Owed(r.history, t) == Owed(sys.history, t);
  }

  lemma NoticesStep(lim: Limits, sys: System, a: Action)
    requires NoticesOk(sys) && Told(sys.core, sys.history)
    ensures NoticesOk(Step(lim, sys, a))
  {
    hide MoveInbound, MoveWorker, MoveApp, BeginSpec, BeginTeardown, SetFlags, MoveLife, MoveRegistration, MovePair,
      MoveWire, NoticesOk, NoticeMoves, Told, TablesShrink, ReaderFrame, WorkerFrame, LifeFrame, PairFrame, SamePair,
      SameSpec, LiveKept;
    if OfReader(a) {
      ReaderNotices(lim, sys, a);
      NoticesMoved(sys, Step(lim, sys, a));
    } else if a.WorkerMove? {
      if a.worker < |sys.workers| {
        WorkerNotices(lim, sys, a.worker, a.input);
        NoticesMoved(sys, Step(lim, sys, a));
      }
    } else if OfApp(a) {
      AppNotices(lim, sys, a);
      NoticesMoved(sys, Step(lim, sys, a));
    } else if a.Notify? {
      DeliverNotices(sys, a.ticket);
    } else {
      QuietShrinks(lim, sys, a);
      ShrinkNotices(sys, Step(lim, sys, a));
      NoticesMoved(sys, Step(lim, sys, a));
    }
  }

  /** Over any run each admission is owed or delivered at most one notice, none while it is live, and
      none after the application closed it itself. */
  lemma {:induction false} NotifiedOnce(lim: Limits, workers: nat, run: Run, n: nat)
    requires Reaches(lim, workers, run, n)
    ensures NoticesOk(run.At(n))
  {
    hide Step, NoticesOk, Told, Safe;
    if n == 0 {
      NoneOwed(workers);
    } else {
      NotifiedOnce(lim, workers, run, n - 1);
      NextState(lim, workers, run, n - 1);
      SafeRun(lim, workers, run, n - 1);
      SafelyTold(lim, run.At(n - 1));
      NoticesStep(lim, run.At(n - 1), run.actions[n - 1]);
    }
  }

  lemma SafelyTold(lim: Limits, sys: System)
    requires Safe(lim, sys)
    ensures Told(sys.core, sys.history)
  {
    hide Told, CountsOk, PairOk, AccountsOk, LifetimesOk, SpecsOk;
  }

  lemma NoneOwed(workers: nat)
    ensures NoticesOk(Initial(workers))
  {
  }
}
