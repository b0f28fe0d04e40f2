/** Byte and identity accounting: what every critical section keeps about the tables. */
module Tables {
  import opened Base
  import opened Fips180
  import opened Protocol
  import opened Complaints
  import opened Results
  import opened Core
  import Digest

  /** The replay byte counter is exactly the retained entries plus the outstanding reservations. */
  ghost predicate LedgerOk(lim: Limits, ledger: Ledger) {
    && ledger.bytes == Total(ledger.tokens, ReservedBytes) + Total(ledger.replay, EntryBytes)
    && ledger.bytes <= lim.maxReplayBytes
    && |ledger.replay| + |ledger.tokens| <= lim.maxReplay
  }

  function QueueBytes(queue: seq<Queued>): nat {
    if |queue| == 0 then 0 else queue[0].bytes + QueueBytes(queue[1..])
  }

  predicate Measured(lim: Limits, epoch: nat, entry: Queued) {
    && entry.bytes == FramedBytes(lim.headerBytes, epoch, U64_MAX, entry.frame)
    && entry.bytes <= lim.maxFrame
  }

  /** The Work queue's byte counter is its contents, and every frame was measured on this pair. */
  predicate OutboxOk(lim: Limits, epoch: nat, outbox: Outbox) {
    && outbox.bytes == QueueBytes(outbox.queue)
    && |outbox.queue| <= lim.maxWorkQueue && outbox.bytes <= lim.maxWorkQueueBytes
    && (forall i :: 0 <= i < |outbox.queue| ==> Measured(lim, epoch, outbox.queue[i]))
    && (forall i :: 0 <= i < |outbox.taken| ==> Measured(lim, epoch, outbox.taken[i]))
  }

  function JobBytes(jobs: seq<Job>): nat {
    if |jobs| == 0 then 0 else jobs[0].bytes + JobBytes(jobs[1..])
  }

  predicate DispatchOk(lim: Limits, jobs: seq<Job>, bytes: nat) {
    bytes == JobBytes(jobs) && |jobs| <= lim.maxDispatch && bytes <= lim.maxDispatchBytes
  }

  function LiveBytes(source: Source): nat { source.bytes }
  function ClosedBytes(tombstone: Tombstone): nat { tombstone.bytes }

  /** `slack` is what the source byte counter holds beyond the live and closed sources. */
  ghost predicate SourcesOk(lim: Limits, sources: Sources, slack: nat) {
    && sources.bytes == Total(sources.live, LiveBytes) + Total(sources.closed, ClosedBytes) + slack
    && sources.bytes <= lim.maxSourceBytes
    && |sources.live| + |sources.closed| <= lim.maxTombstones
    && |sources.live| <= lim.maxStreams
    && sources.live.Keys !! sources.closed.Keys
  }

  ghost predicate TablesOk(lim: Limits, s: State, slack: nat) {
    && LedgerOk(lim, s.ledger) && OutboxOk(lim, s.link.epoch, s.outbox) && DispatchOk(lim, s.dispatch, s.dispatchBytes)
    && SourcesOk(lim, s.sources, slack)
    && s.sources.live.Keys !! s.ledger.tokens.Keys
  }

  // Sums of queues.

  lemma {:induction false} QueueBytesAppend(queue: seq<Queued>, entry: Queued)
    ensures QueueBytes(queue + [entry]) == QueueBytes(queue) + entry.bytes
  {
    if |queue| != 0 {
      assert (queue + [entry])[1..] == queue[1..] + [entry];
      QueueBytesAppend(queue[1..], entry);
    }
  }

  lemma {:induction false} JobBytesAppend(jobs: seq<Job>, job: Job)
    ensures JobBytes(jobs + [job]) == JobBytes(jobs) + job.bytes
  {
    if |jobs| != 0 {
      assert (jobs + [job])[1..] == jobs[1..] + [job];
      JobBytesAppend(jobs[1..], job);
    }
  }

  // The ledger.

  lemma AddTokenOk(lim: Limits, ledger: Ledger, id: string, token: Token)
    requires LedgerOk(lim, ledger) && id !in ledger.tokens
    requires |ledger.replay| + |ledger.tokens| < lim.maxReplay
    requires FitsByteBudget(ledger.bytes, token.reservation, lim.maxReplayBytes)
    ensures LedgerOk(lim, AddToken(ledger, id, token))
  {
    TotalInsert(ledger.tokens, ReservedBytes, id, token);
  }

  /** No release clamps: a reservation is always part of the counter. */
  lemma ReleaseOk(lim: Limits, ledger: Ledger, id: string)
    requires LedgerOk(lim, ledger)
    ensures LedgerOk(lim, ReleaseWorkToken(ledger, id))
    ensures id in ledger.tokens ==>
              ReleaseWorkToken(ledger, id).bytes + ledger.tokens[id].reservation == ledger.bytes
  {
    if id in ledger.tokens {
      TotalRemove(ledger.tokens, ReservedBytes, id);
      RemoveSize(ledger.tokens, id);
    }
  }

  lemma RetainOk(lim: Limits, ledger: Ledger, id: string, ticket: nat, entry: Entry)
    requires LedgerOk(lim, ledger)
    ensures var after := Retain(lim, ledger, id, ticket, entry);
            after.Some? ==> LedgerOk(lim, after.value)
  {
    if Retain(lim, ledger, id, ticket, entry).Some? {
      if id in ledger.tokens {
        TotalRemove(ledger.tokens, ReservedBytes, id);
        RemoveSize(ledger.tokens, id);
      }
      TotalInsert(ledger.replay, EntryBytes, id, entry);
    }
  }

  lemma ForgetOk(lim: Limits, ledger: Ledger, id: string)
    requires LedgerOk(lim, ledger) && id in ledger.replay
    ensures ledger.replay[id].bytes <= ledger.bytes
    ensures LedgerOk(lim, ledger.(replay := ledger.replay - {id},
                                  bytes := Minus(ledger.bytes, ledger.replay[id].bytes)))
  {
    TotalRemove(ledger.replay, EntryBytes, id);
    RemoveSize(ledger.replay, id);
  }

  lemma ReleaseAllOk(lim: Limits, ledger: Ledger)
    requires LedgerOk(lim, ledger)
    ensures LedgerOk(lim, ReleaseAllTokens(ledger))
  {
    EmptyTotal(ReleaseAllTokens(ledger).tokens, ReservedBytes);
  }

  // The Work queue.

  lemma PushOk(lim: Limits, s: State, frame: WorkFrame, slack: nat)
    requires TablesOk(lim, s, slack)
    requires RoomFor(lim, s, FrameBytes(lim, s, frame)) && FrameBytes(lim, s, frame) <= lim.maxFrame
    ensures TablesOk(lim, Push(s, frame, FrameBytes(lim, s, frame)), slack)
  {
    hide FramedBytes, Total;
    QueueBytesAppend(s.outbox.queue, Queued(frame, FrameBytes(lim, s, frame)));
  }

  lemma QueueWorkOk(lim: Limits, s: State, frame: WorkFrame, slack: nat)
    requires TablesOk(lim, s, slack)
    ensures var after := QueueWork(lim, s, frame); after.Some? ==> TablesOk(lim, after.value, slack)
  {
    if QueueWork(lim, s, frame).Some? {
      PushOk(lim, s, frame, slack);
    }
  }

  lemma PopWorkOk(lim: Limits, s: State, slack: nat)
    requires TablesOk(lim, s, slack) && |s.outbox.queue| > 0
    ensures TablesOk(lim, PopWork(s), slack)
    ensures PopWork(s).outbox.bytes + s.outbox.queue[0].bytes == s.outbox.bytes
  {
    hide FramedBytes, Total, Minus;
  }

  // Sections on Work.

  lemma CommitTerminalOk(lim: Limits, s: State, job: Job, frame: WorkFrame, slack: nat)
    requires TablesOk(lim, s, slack)
    ensures TablesOk(lim, CommitTerminal(lim, s, job, frame).0, slack)
  {
    hide FramedBytes, Total;
    RetainOk(lim, s.ledger, job.workId, job.ticket, EntryFor(lim, s, job, frame));
    var after := CommitTerminal(lim, s, job, frame);
    if after.1.Committed? {
      var ledger := Retain(lim, s.ledger, job.workId, job.ticket, EntryFor(lim, s, job, frame)).value;
      assert TablesOk(lim, s.(ledger := ledger), slack);
      PushOk(lim, s.(ledger := ledger), frame, slack);
    }
  }

  lemma EraseWorkTokenOk(lim: Limits, s: State, id: string, slack: nat)
    requires TablesOk(lim, s, slack)
    ensures TablesOk(lim, EraseWorkToken(s, id), slack)
  {
    hide FramedBytes;
    ReleaseOk(lim, s.ledger, id);
  }

  lemma EnqueueDispatchOk(lim: Limits, s: State, job: Job, slack: nat)
    requires TablesOk(lim, s, slack)
    ensures TablesOk(lim, EnqueueDispatch(lim, s, job).0, slack)
  {
    hide FramedBytes, Total;
    var after := EnqueueDispatch(lim, s, job);
    if after.1.Admitted? {
      var reservation := ReserveTerminalReplay(lim, s.ledger, job.workId, job.fingerprint).value;
      AddTokenOk(lim, s.ledger, job.workId, Token(s.nextTicket, reservation));
      JobBytesAppend(s.dispatch, job.(ticket := s.nextTicket, reservation := reservation));
    }
  }

  // Sections on sources.

  lemma CommitSourceTerminalOk(lim: Limits, s: State, id: string, source: Source, frame: WorkFrame, slack: nat)
    requires TablesOk(lim, s, slack) && source.bytes <= slack
    requires id !in s.sources.live && id !in s.sources.closed
    requires |s.sources.live| + |s.sources.closed| < lim.maxTombstones
    ensures var after := CommitSourceTerminal(lim, s, id, source, frame);
            after.Some? ==> TablesOk(lim, after.value, slack - source.bytes)
  {
    hide FramedBytes, Total;
    QueueWorkOk(lim, s, frame, slack);
    var after := CommitSourceTerminal(lim, s, id, source, frame);
    if after.Some? {
      TotalInsert(s.sources.closed, ClosedBytes, id, after.value.sources.closed[id]);
    }
  }

  /** Closing moves a source's bytes from the live to the closed table. */
  lemma MoveToClosedOk(lim: Limits, s: State, id: string, frame: WorkFrame, slack: nat)
    requires TablesOk(lim, s, slack) && id in s.sources.live
    ensures var after := CommitSourceTerminal(lim, s, id, s.sources.live[id], frame);
            after.Some? ==> TablesOk(lim, DropLive(after.value, id), slack)
  {
    hide FramedBytes, Total;
    var source := s.sources.live[id];
    QueueWorkOk(lim, s, frame, slack);
    var after := CommitSourceTerminal(lim, s, id, source, frame);
    if after.Some? {
      TotalInsert(s.sources.closed, ClosedBytes, id, after.value.sources.closed[id]);
      TotalRemove(s.sources.live, LiveBytes, id);
      RemoveSize(s.sources.live, id);
    }
  }

  lemma EnqueueSourceOpenOk(lim: Limits, s: State, job: Job, expired: bool, wire: seq<Byte>, slack: nat)
    requires TablesOk(lim, s, slack)
    ensures TablesOk(lim, EnqueueSourceOpen(lim, s, job, expired, wire).0, slack)
  {
    hide TablesOk, ValidateWorkContext, AdmitSource, RefuseSource, Queues;
    var id, verdict := job.workId, JudgeSourceOpen(lim, s, job, expired);
    if verdict.Admitted? && id !in s.sources.closed && id !in s.sources.live && id !in s.ledger.tokens {
      var valid := ValidateWorkContext(s, job.context, job.fingerprint, SourceOpen, expired);
      AdmitSourceOk(lim, s, job, valid.endpoint, valid.binding, slack);
    } else if verdict.Reject? && id !in s.sources.closed && id !in s.sources.live {
      RefuseSourceOk(lim, s, job, verdict.complaint, wire, slack);
    }
  }

  lemma AdmitSourceOk(lim: Limits, s: State, job: Job, endpoint: Endpoint, binding: nat, slack: nat)
    requires TablesOk(lim, s, slack) && SourceFits(lim, s, job) && |s.sources.live| < lim.maxStreams
    requires |s.dispatch| < lim.maxDispatch && FitsByteBudget(s.dispatchBytes, job.bytes, lim.maxDispatchBytes)
    requires job.workId !in s.sources.closed && job.workId !in s.sources.live && job.workId !in s.ledger.tokens
    ensures TablesOk(lim, AdmitSource(lim, s, job, endpoint, binding), slack)
  {
    hide OutboxOk, LedgerOk, FramedBytes, Total;
    JobBytesAppend(s.dispatch, job.(ticket := s.nextTicket, epoch := s.link.epoch));
    TotalInsert(s.sources.live, LiveBytes, job.workId, NewSource(s, lim, job, endpoint, binding));
  }

  lemma RefuseSourceOk(lim: Limits, s: State, job: Job, complaint: Complaint, wire: seq<Byte>, slack: nat)
    requires TablesOk(lim, s, slack) && job.workId !in s.sources.closed && job.workId !in s.sources.live
    ensures var after := RefuseSource(lim, s, job, complaint, wire);
            after.Some? ==> TablesOk(lim, after.value, slack)
  {
    hide OutboxOk, LedgerOk, FramedBytes, Total, CommitSourceTerminal, Explain;
    var source := NewSource(s, lim, job, NO_ENDPOINT, 0);
    var held := s.(sources := s.sources.(bytes := s.sources.bytes + source.bytes), nextTicket := s.nextTicket + 1);
    if SourceFits(lim, s, job) {
      assert TablesOk(lim, held, slack + source.bytes);
      var frame := RefusalFrame(job.workId, complaint, wire);
      CommitSourceTerminalOk(lim, held, job.workId, source, frame, slack + source.bytes);
    }
  }

  lemma UpdateLiveOk(lim: Limits, s: State, id: string, source: Source, slack: nat)
    requires TablesOk(lim, s, slack) && id in s.sources.live && source.bytes == s.sources.live[id].bytes
    ensures TablesOk(lim, SetLive(s, id, source), slack)
  {
    hide FramedBytes, Total;
    TotalReplace(s.sources.live, LiveBytes, id, source);
  }

  lemma PublishSourceOk(lim: Limits, s: State, id: string, items: seq<seq<Byte>>, wire: seq<Byte>, slack: nat)
    requires TablesOk(lim, s, slack)
    ensures TablesOk(lim, PublishSource(lim, s, id, items, wire).0, slack)
  {
    hide FramedBytes, Total, SaturatedBytes;
    var after := PublishSource(lim, s, id, items, wire);
    if after.1.Accepted? {
      var frame := WorkFrame(SourceData(id, s.sources.live[id].sequence + 1, items), wire);
      QueueWorkOk(lim, s, frame, slack);
      UpdateLiveOk(lim, QueueWork(lim, s, frame).value, id, after.0.sources.live[id], slack);
    }
  }

  lemma CloseSourceOk(lim: Limits, s: State, id: string, problem: Option<AdapterError>, wire: seq<Byte>, slack: nat)
    requires TablesOk(lim, s, slack)
    ensures TablesOk(lim, CloseSource(lim, s, id, problem, wire).0, slack)
  {
    hide FramedBytes, Total, IsTypedError;
    if CloseSource(lim, s, id, problem, wire).1 {
      MoveToClosedOk(lim, s, id, CloseFrame(s, id, problem, wire), slack);
    }
  }

  lemma GrantSourceCreditOk(lim: Limits, s: State, id: string, acknowledged: nat, grant: Credit, slack: nat)
    requires TablesOk(lim, s, slack)
    ensures TablesOk(lim, GrantSourceCredit(s, id, acknowledged, grant).0, slack)
  {
    hide FramedBytes, Total;
    var after := GrantSourceCredit(s, id, acknowledged, grant).0;
    if id in s.sources.live {
      UpdateLiveOk(lim, s, id, after.sources.live[id], slack);
      assert s.sources.live[id := s.sources.live[id]] == s.sources.live;
    } else if id in s.sources.closed {
      TotalReplace(s.sources.closed, ClosedBytes, id, after.sources.closed[id]);
    }
  }

  lemma ForgetTombstoneOk(lim: Limits, sources: Sources, id: string, slack: nat)
    requires SourcesOk(lim, sources, slack) && id in sources.closed
    ensures sources.closed[id].bytes <= sources.bytes
    ensures SourcesOk(lim, sources.(closed := sources.closed - {id},
                                    bytes := sources.bytes - sources.closed[id].bytes), slack)
  {
    TotalRemove(sources.closed, ClosedBytes, id);
    RemoveSize(sources.closed, id);
  }

  lemma AcknowledgeTerminalOk(lim: Limits, s: State, identity: Identity, digest: string, slack: nat)
    requires TablesOk(lim, s, slack)
    ensures TablesOk(lim, AcknowledgeTerminal(s, identity, digest).0, slack)
  {
    hide OutboxOk, LedgerOk, SourcesOk, Digest.IsCanonicalSha256, AcknowledgeWork, AcknowledgeStream;
    if !identity.NoIdentity? {
      AcknowledgeWorkOk(lim, s, identity.id, digest, slack);
      AcknowledgeStreamOk(lim, s, identity.id, digest, slack);
    }
  }

  lemma AcknowledgeWorkOk(lim: Limits, s: State, id: string, digest: string, slack: nat)
    requires TablesOk(lim, s, slack)
    ensures TablesOk(lim, AcknowledgeWork(s, id, digest).0, slack)
  {
    hide OutboxOk, LedgerOk, DispatchOk, SourcesOk, Minus;
    if id in s.ledger.replay {
      ForgetOk(lim, s.ledger, id);
    }
  }

  lemma AcknowledgeStreamOk(lim: Limits, s: State, id: string, digest: string, slack: nat)
    requires TablesOk(lim, s, slack)
    ensures TablesOk(lim, AcknowledgeStream(s, id, digest).0, slack)
  {
    hide OutboxOk, LedgerOk, SourcesOk;
    if id in s.sources.closed {
      ForgetTombstoneOk(lim, s.sources, id, slack);
    }
  }

  lemma HandleCancellationOk(lim: Limits, s: State, identity: Identity, reason: string, wire: seq<Byte>, slack: nat)
    requires TablesOk(lim, s, slack)
    ensures TablesOk(lim, HandleCancellation(lim, s, identity, reason, wire).0, slack)
  {
    hide FramedBytes, Total, CommitSourceTerminal, PeerCancelled;
    if identity.StreamId? && identity.id in s.sources.live {
      var flagged := s.(cancelled := s.cancelled + {s.sources.live[identity.id].ticket});
      MoveToClosedOk(lim, flagged, identity.id, CloseFrame(flagged, identity.id, Some(PeerCancelled(reason)), wire),
          slack);
    }
  }

  lemma SettleSourceOpenOk(lim: Limits, s: State, job: Job, decision: OpenDecision, wire: seq<Byte>, slack: nat)
    requires TablesOk(lim, s, slack)
    ensures TablesOk(lim, SettleSourceOpen(lim, s, job, decision, wire).0, slack)
  {
    hide FramedBytes, Total, CommitSourceTerminal, QueueWork;
    var id, after := job.workId, SettleSourceOpen(lim, s, job, decision, wire);
    var frame := OpenFrame(id, decision, wire);
    if after.1.Opened? {
      QueueWorkOk(lim, s, frame, slack);
      QueueWorkTouchesOutboxOnly(lim, s, frame);
      UpdateLiveOk(lim, QueueWork(lim, s, frame).value, id, after.0.sources.live[id], slack);
    } else if after.1.OpenRefused? {
      MoveToClosedOk(lim, s, id, frame, slack);
    }
  }

  lemma QueueWorkTouchesOutboxOnly(lim: Limits, s: State, frame: WorkFrame)
    ensures var after := QueueWork(lim, s, frame);
            after.Some? ==> after.value == s.(outbox := after.value.outbox)
  {
  }

  // Deactivation and pair replacement.

  lemma DeactivateOk(lim: Limits, s: State, slack: nat)
    requires TablesOk(lim, s, slack)
    ensures TablesOk(lim, Deactivate(s), 0)
  {
    hide OutboxOk, LedgerOk, Tickets;
  }

  /** Retiring a pair leaves the counter above the tables by what the live sources held. */
  lemma RetirePairTablesOk(lim: Limits, s: State, slack: nat)
    requires TablesOk(lim, s, slack)
    ensures TablesOk(lim, RetirePairTables(s), slack + Total(s.sources.live, LiveBytes))
  {
    hide OutboxOk, LedgerOk, Tickets, Total;
    EmptyTotal(RetirePairTables(s).sources.live, LiveBytes);
  }

  lemma ClearConnectionOk(lim: Limits, s: State, slack: nat)
    requires TablesOk(lim, s, slack)
    ensures TablesOk(lim, ClearConnection(s), slack)
  {
    hide FramedBytes, Total;
    ReleaseAllOk(lim, s.ledger);
  }

  /** Zeroing the source counter is sound exactly because no source is live between pairs. */
  lemma PreparePairOk(lim: Limits, s: State, slack: nat)
    requires TablesOk(lim, s, slack) && s.sources.live == map[]
    ensures TablesOk(lim, PreparePair(s), 0)
  {
    hide FramedBytes;
    ReleaseAllOk(lim, s.ledger);
  }

  /** A job that still holds its reservation is refused its terminal only by the transport. */
  lemma ReservationSuffices(lim: Limits, s: State, job: Job, frame: WorkFrame, slack: nat)
    requires TablesOk(lim, s, slack) && UsesSha256(lim)
    requires job.workId in s.ledger.tokens
    requires s.ledger.tokens[job.workId] == Token(job.ticket, Reservation(lim, job.fingerprint))
    requires job.workId !in s.ledger.replay && KindMatches(job.kind, frame.body)
    ensures var ((after, result), bytes) := (CommitTerminal(lim, s, job, frame), FrameBytes(lim, s, frame));
            && (result.TooLarge? <==> bytes > lim.maxFrame)
            && (result.Committed? <==>
                  bytes <= lim.maxFrame && Sendable(s) && RoomFor(lim, s, bytes) && Encodable(frame))
            && (result.Committed? ==>
                  && job.workId !in after.ledger.tokens && job.workId in after.ledger.replay
                  && after.ledger.replay[job.workId].frame == frame && after.ledger.bytes <= s.ledger.bytes)
  {
    hide FramedBytes, DigestOf;
    assert |lim.digest(frame)| == Digest.CANONICAL_SHA256_TEXT_BYTES by { assert lim.digest(frame) == DigestOf(frame); }
    TotalRemove(s.ledger.tokens, ReservedBytes, job.workId);
  }
}
