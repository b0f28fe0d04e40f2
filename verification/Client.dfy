/** The client as an object: its fields are updated in place by the sections the mutex guards. Each
    method leaves the object in exactly the state that its section's function gives. */
module ClientObject {
  import opened Base
  import opened Fips180
  import opened Protocol
  import opened Complaints
  import opened Results
  import opened Core
  import Digest

  class Client {
    const lim: Limits

    var link: Link
    var workTokens: map<string, Token>
    var replay: map<string, Entry>
    var replayBytes: nat
    var workQueue: seq<Queued>
    var workQueueBytes: nat
    var dispatchQueue: seq<Job>
    var dispatchQueueBytes: nat
    var sourceStreams: map<string, Source>
    var closedSources: map<string, Tombstone>
    var sourceStateBytes: nat
    var activeSpec: Option<Spec>
    var desiredSpec: Spec
    var activeCapabilities: map<string, Grant>
    /** The shared cancellation states that were requested, and the name of the next one. */
    var requested: set<nat>
    var nextTicket: nat
    ghost var taken: seq<Queued>
    ghost var log: seq<WorkFrame>

    ghost function Contents(): State
      reads this
    {
      State(link, Ledger(workTokens, replay, replayBytes), Outbox(workQueue, workQueueBytes, taken, log),
            dispatchQueue, dispatchQueueBytes, Sources(sourceStreams, closedSources, sourceStateBytes),
            activeSpec, desiredSpec, activeCapabilities, requested, nextTicket)
    }

    // The Work queue.

    method Enqueue(frame: WorkFrame, bytes: nat)
      modifies this
      ensures Contents() == Push(old(Contents()), frame, bytes)
    {
      workQueue := workQueue + [Queued(frame, bytes)];
      workQueueBytes := workQueueBytes + bytes;
      log := log + [frame];
    }

    method WorkFrameBytes(frame: WorkFrame) returns (bytes: nat)
      ensures bytes == FrameBytes(lim, Contents(), frame)
    {
      bytes := FramedBytes(lim.headerBytes, link.epoch, U64_MAX, frame);
    }

    method QueueWork(frame: WorkFrame) returns (queued: bool)
      modifies this
      ensures var r := Core.QueueWork(lim, old(Contents()), frame);
              queued == r.Some? && Contents() == if queued then r.value else old(Contents())
    {
      var bytes := WorkFrameBytes(frame);
      if !link.session || link.failed || link.stopping || |workQueue| >= lim.maxWorkQueue
         || bytes > lim.maxFrame || !FitsByteBudget(workQueueBytes, bytes, lim.maxWorkQueueBytes) {
        return false;
      }
      Enqueue(frame, bytes);
      queued := true;
    }

    /** The writer takes the front of the queue. */
    method TakeFrame() returns (first: Queued)
      requires |workQueue| > 0
      modifies this
      ensures first == old(workQueue[0]) && Contents() == PopWork(old(Contents()))
    {
      first := workQueue[0];
      workQueue := workQueue[1..];
      workQueueBytes := Minus(workQueueBytes, first.bytes);
      taken := taken + [first];
    }

    // Work tokens and retained terminals.

    method RememberReplay(workId: string, entry: Entry)
      modifies this
      ensures Contents() == old(Contents()).(ledger := Core.RememberReplay(old(Contents()).ledger, workId, entry))
    {
      if workId in replay {
        replayBytes := Minus(replayBytes, replay[workId].bytes);
      }
      replayBytes := replayBytes + entry.bytes;
      replay := replay[workId := entry];
    }

    /** Turns the job's own reservation into the entry, or finds room for one more identity. */
    method RetainTerminal(workId: string, ticket: nat, entry: Entry) returns (retained: bool)
      modifies this
      ensures var r := Retain(lim, old(Contents()).ledger, workId, ticket, entry);
              && retained == r.Some?
              && Contents() == if retained then old(Contents()).(ledger := r.value) else old(Contents())
    {
      if workId in replay {
        return false;
      }
      var converts := workId in workTokens && workTokens[workId].ticket == ticket
          && workTokens[workId].reservation != 0;
      var reservation := if converts then workTokens[workId].reservation else 0;
      if reservation > replayBytes {
        return false;
      }
      if (!converts && |replay| + |workTokens| >= lim.maxReplay)
         || !FitsByteBudget(replayBytes - reservation, entry.bytes, lim.maxReplayBytes) {
        return false;
      }
      if converts {
        replayBytes := replayBytes - reservation;
        workTokens := workTokens - {workId};
      }
      RememberReplay(workId, entry);
      retained := true;
    }

    method CommitTerminalFrame(job: Job, frame: WorkFrame) returns (result: CommitResult)
      modifies this
      ensures (Contents(), result) == CommitTerminal(lim, old(Contents()), job, frame)
    {
      hide Retain, Encodable, KindMatches;
      var bytes := WorkFrameBytes(frame);
      if bytes > lim.maxFrame {
        return TooLarge;
      }
      if !link.session || link.failed || link.stopping || |workQueue| >= lim.maxWorkQueue
         || !FitsByteBudget(workQueueBytes, bytes, lim.maxWorkQueueBytes) {
        return Unavailable;
      }
      if !KindMatches(job.kind, frame.body) || !Encodable(frame) {
        return Unavailable;
      }
      var digest := lim.digest(frame);
      var entry := Entry(job.kind, job.fingerprint, frame, digest, bytes + |job.fingerprint| + |digest|);
      var retained := RetainTerminal(job.workId, job.ticket, entry);
      if !retained {
        return Unavailable;
      }
      Enqueue(frame, bytes);
      result := Committed;
    }

    /** The reservation is added to the counter at once; the caller stores the token. */
    method ReserveTerminalReplay(workId: string, fingerprint: string) returns (reservation: Option<nat>)
      modifies this`replayBytes
      ensures reservation == Core.ReserveTerminalReplay(lim, old(Contents()).ledger, workId, fingerprint)
      ensures replayBytes == old(replayBytes) + if reservation.Some? then reservation.value else 0
    {
      if workId == "" || |replay| + |workTokens| >= lim.maxReplay {
        return None;
      }
      var metadata := |fingerprint| + Digest.CANONICAL_SHA256_TEXT_BYTES;
      if lim.maxFrame > SIZE_MAX - metadata {
        return None;
      }
      if !FitsByteBudget(replayBytes, lim.maxFrame + metadata, lim.maxReplayBytes) {
        return None;
      }
      replayBytes := replayBytes + lim.maxFrame + metadata;
      reservation := Some(lim.maxFrame + metadata);
    }

    method ReleaseWorkToken(workId: string)
      modifies this`workTokens, this`replayBytes
      ensures Contents() == EraseWorkToken(old(Contents()), workId)
    {
      if workId !in workTokens {
        return;
      }
      if workTokens[workId].reservation <= replayBytes {
        replayBytes := replayBytes - workTokens[workId].reservation;
      } else {
        replayBytes := 0;
      }
      workTokens := workTokens - {workId};
    }

    /** Tokens are released one by one; the counter ends where one subtraction would have left it. */
    method ReleaseEveryToken()
      modifies this`workTokens, this`replayBytes
      ensures Contents() == old(Contents()).(ledger := ReleaseAllTokens(old(Contents()).ledger))
    {
      while |workTokens| > 0
        invariant Contents() == old(Contents()).(ledger := Ledger(workTokens, replay, replayBytes))
        invariant ReleaseAllTokens(Contents().ledger) == ReleaseAllTokens(old(Contents()).ledger)
        decreases |workTokens|
      {
        var workId :| workId in workTokens;
        TotalRemove(workTokens, ReservedBytes, workId);
        RemoveSize(workTokens, workId);
        ReleaseWorkToken(workId);
      }
      EmptyTotal(workTokens, ReservedBytes);
    }

    // Admission.

    method EnqueueDispatch(job: Job) returns (verdict: Verdict)
      modifies this
      ensures (Contents(), verdict) == Core.EnqueueDispatch(lim, old(Contents()), job)
    {
      hide Core.ReserveTerminalReplay, Queues, AddToken;
      if job.workId != "" && job.workId in replay {
        var entry := replay[job.workId];
        return if entry.kind == job.kind
            && entry.fingerprint == job.fingerprint then Replay(entry.frame) else IdentityViolation;
      }
      if job.workId == "" {
        return IdentityViolation;
      }
      if !link.accepting || link.phase != Ready {
        return Reject(NotReadyForWork);
      }
      if job.workId in workTokens || job.workId in sourceStreams {
        return IdentityViolation;
      }
      if |dispatchQueue| >= lim.maxDispatch {
        return Reject(DispatchFull);
      }
      if !FitsByteBudget(dispatchQueueBytes, job.bytes, lim.maxDispatchBytes) {
        return Reject(DispatchOverBudget);
      }
      var admitted := AdmitJob(job);
      verdict := if admitted then Admitted else RetirePair;
    }

    /** Reserves for the job's terminal, gives it a token and queues it; otherwise nothing happens. */
    method AdmitJob(job: Job) returns (admitted: bool)
      modifies this
      ensures var was := old(Contents());
              var r := Core.ReserveTerminalReplay(lim, was.ledger, job.workId, job.fingerprint);
              && admitted == r.Some?
              && Contents() == if r.None? then was else was.(
                   ledger := AddToken(was.ledger, job.workId, Token(was.nextTicket, r.value)),
                   dispatch := was.dispatch + [job.(ticket := was.nextTicket, reservation := r.value)],
                   dispatchBytes := was.dispatchBytes + job.bytes, nextTicket := was.nextTicket + 1)
    {
      hide Core.ReserveTerminalReplay;
      var reservation := ReserveTerminalReplay(job.workId, job.fingerprint);
      if reservation.None? {
        return false;
      }
      workTokens := workTokens[job.workId := Token(nextTicket, reservation.value)];
      AppendJob(job.(ticket := nextTicket, reservation := reservation.value));
      admitted := true;
    }

    /** The job goes to the back of the dispatch queue, and its ticket is spent. */
    method AppendJob(job: Job)
      modifies this`dispatchQueue, this`dispatchQueueBytes, this`nextTicket
      ensures dispatchQueue == old(dispatchQueue) + [job] && dispatchQueueBytes == old(dispatchQueueBytes) + job.bytes
      ensures nextTicket == old(nextTicket) + 1
    {
      dispatchQueueBytes := dispatchQueueBytes + job.bytes;
      dispatchQueue := dispatchQueue + [job];
      nextTicket := nextTicket + 1;
    }

    method CountSourceStreams(job: Job) returns (count: nat)
      ensures count == StreamsAt(Contents(), job)
    {
      hide SameEndpoint;
      var rest := sourceStreams.Keys;
      count := 0;
      while rest != {}
        invariant rest <= sourceStreams.Keys
        invariant count == |set id | id in sourceStreams.Keys - rest && SameEndpoint(sourceStreams[id], job)|
        decreases |rest|
      {
        var id :| id in rest;
        CountOneMore(sourceStreams, rest, id, job);
        if SameEndpoint(sourceStreams[id], job) {
          count := count + 1;
        }
        rest := rest - {id};
      }
      assert (set id | id in sourceStreams.Keys - rest && SameEndpoint(sourceStreams[id], job))
          == (set id | id in sourceStreams && SameEndpoint(sourceStreams[id], job));
    }

    static lemma CountOneMore(live: map<string, Source>, rest: set<string>, id: string, job: Job)
      requires rest <= live.Keys && id in rest
      ensures var (before, after) := (set k | k in live.Keys - rest && SameEndpoint(live[k], job),
                                      set k | k in live.Keys - (rest - {id}) && SameEndpoint(live[k], job));
              |after| == |before| + if SameEndpoint(live[id], job) then 1 else 0
    {
      var before := set k | k in live.Keys - rest && SameEndpoint(live[k], job);
      var after := set k | k in live.Keys - (rest - {id}) && SameEndpoint(live[k], job);
      assert after == before + if SameEndpoint(live[id], job) then {id} else {};
    }

    // Source streams.

    method JudgeSourceOpen(job: Job, expired: bool) returns (verdict: Verdict)
      ensures verdict == Core.JudgeSourceOpen(lim, Contents(), job, expired)
    {
      hide ValidateWorkContext, StreamsAt;
      if job.context.capability == "" || job.context.endpoint == "" {
        return Reject(OpenBadIdentity);
      }
      if job.credit.messages == 0 || job.credit.bytes == 0 {
        return Reject(OpenNoCredit);
      }
      var valid := CheckContext(job, expired);
      if valid.Faulty? {
        return Reject(OpenBadContext(valid.fault));
      }
      if SourceOpen !in activeCapabilities[job.context.capability].handlers {
        return Reject(OpenNoHandler);
      }
      if |sourceStreams| + |closedSources| >= lim.maxTombstones {
        return RetirePair;
      }
      if |sourceStreams| >= lim.maxStreams {
        return Reject(OpenStreamLimit);
      }
      var count := CountSourceStreams(job);
      if valid.endpoint.maxStreams > 0 && count >= valid.endpoint.maxStreams {
        return Reject(OpenEndpointLimit);
      }
      if |dispatchQueue| >= lim.maxDispatch {
        return Reject(OpenDispatchFull);
      }
      if !FitsByteBudget(dispatchQueueBytes, job.bytes, lim.maxDispatchBytes) {
        return Reject(OpenDispatchOverBudget);
      }
      verdict := if SourceBytes(lim, job) > SIZE_MAX
          || !FitsByteBudget(sourceStateBytes, SourceBytes(lim, job), lim.maxSourceBytes)
        then RetirePair else Admitted;
    }

    method CheckContext(job: Job, expired: bool) returns (check: ContextCheck)
      ensures check == ValidateWorkContext(Contents(), job.context, job.fingerprint, SourceOpen, expired)
    {
      var context := job.context;
      if !link.accepting || link.phase != Ready || link.failed {
        return Faulty(LinkNotReady);
      }
      if context.revision != (if activeSpec.Some? then activeSpec.value.revision else 0) {
        return Faulty(StaleRevision);
      }
      if context.capability !in activeCapabilities {
        return Faulty(NoContract);
      }
      var grant := activeCapabilities[context.capability];
      if context.endpoint !in grant.endpoints || context.contract != grant.contract {
        return Faulty(NoContract);
      }
      var endpoint := grant.endpoints[context.endpoint];
      if !endpoint.mode.SourceOpen? {
        return Faulty(WrongMode);
      }
      if endpoint.deadlineRequired && !context.hasDeadline {
        return Faulty(NoDeadline);
      }
      if context.hasDeadline && expired {
        return Faulty(DeadlineExpired);
      }
      if endpoint.keyRequired && !context.hasKey {
        return Faulty(NoIdempotencyKey);
      }
      if !Digest.IsCanonicalSha256(job.fingerprint) {
        return Faulty(BadRequestDigest);
      }
      if !context.subjectOk {
        return Faulty(BadSubject);
      }
      check := Valid(grant.binding, endpoint);
    }

    method CommitSourceTerminal(id: string, source: Source, frame: WorkFrame) returns (committed: bool)
      modifies this
      ensures var r := Core.CommitSourceTerminal(lim, old(Contents()), id, source, frame);
              committed == r.Some? && Contents() == if committed then r.value else old(Contents())
    {
      if id == "" || !(frame.body.SourceOpenResult? || frame.body.SourceClose?) || frame.body.streamId != id
         || !Encodable(frame) {
        return false;
      }
      var bytes := WorkFrameBytes(frame);
      if lim.maxFrame == 0 || bytes > lim.maxFrame {
        return false;
      }
      committed := QueueWork(frame);
      if committed {
        closedSources := closedSources[id := Entomb(lim, source, frame)];
      }
    }

    method EnqueueSourceOpen(job: Job, expired: bool, wire: seq<Byte>) returns (verdict: Verdict)
      modifies this
      ensures (Contents(), verdict) == Core.EnqueueSourceOpen(lim, old(Contents()), job, expired, wire)
    {
      hide Core.JudgeSourceOpen, ValidateWorkContext, Core.AdmitSource, Core.RefuseSource, Queues;
      var id := job.workId;
      if id != "" && id in closedSources {
        var closed := closedSources[id];
        return if closed.fingerprint == job.fingerprint then Replay(closed.frame) else IdentityViolation;
      }
      if id == "" || id in sourceStreams || id in workTokens || id in replay {
        return IdentityViolation;
      }
      verdict := JudgeSourceOpen(job, expired);
      if verdict.Admitted? {
        var valid := CheckContext(job, expired);
        AdmitSource(job, valid.endpoint, valid.binding);
      } else if verdict.Reject? {
        var refused := RefuseSource(job, verdict.complaint, wire);
        if !refused {
          verdict := RetirePair;
        }
      }
    }

    method AdmitSource(job: Job, endpoint: Endpoint, binding: nat)
      modifies this
      ensures Contents() == Core.AdmitSource(lim, old(Contents()), job, endpoint, binding)
    {
      HoldSource(job.workId, Source(nextTicket, job.fingerprint, job.context, endpoint, binding, false, link.epoch,
          Credit(0, 0), 0, 0, SourceBytes(lim, job)));
      AppendJob(job.(ticket := nextTicket, epoch := link.epoch));
    }

    method HoldSource(id: string, source: Source)
      modifies this`sourceStreams, this`sourceStateBytes
      ensures Contents() == var was := old(Contents());
          was.(sources := was.sources.(live := was.sources.live[id := source],
                                       bytes := was.sources.bytes + source.bytes))
    {
      sourceStreams := sourceStreams[id := source];
      sourceStateBytes := sourceStateBytes + source.bytes;
    }

    /** A refused open is accounted for and kept as a tombstone, or leaves no trace. */
    method RefuseSource(job: Job, complaint: Complaint, wire: seq<Byte>) returns (refused: bool)
      modifies this
      ensures var r := Core.RefuseSource(lim, old(Contents()), job, complaint, wire);
              refused == r.Some? && Contents() == if refused then r.value else old(Contents())
    {
      hide Core.CommitSourceTerminal, Explain;
      var bytes := SourceBytes(lim, job);
      if |sourceStreams| + |closedSources| >= lim.maxTombstones || bytes > SIZE_MAX
         || !FitsByteBudget(sourceStateBytes, bytes, lim.maxSourceBytes) {
        return false;
      }
      var source := Source(nextTicket, job.fingerprint, job.context, NO_ENDPOINT, 0, false, link.epoch, Credit(0, 0),
          0, 0, bytes);
      HoldBytes(bytes);
      refused := CommitSourceTerminal(job.workId, source, RefusalFrame(job.workId, complaint, wire));
      if !refused {
        sourceStateBytes, nextTicket := sourceStateBytes - bytes, nextTicket - 1;
      }
    }

    method HoldBytes(bytes: nat)
      modifies this`sourceStateBytes, this`nextTicket
      ensures Contents() == var was := old(Contents());
              was.(sources := was.sources.(bytes := was.sources.bytes + bytes), nextTicket := was.nextTicket + 1)
    {
      sourceStateBytes, nextTicket := sourceStateBytes + bytes, nextTicket + 1;
    }

    static method SumBytes(items: seq<seq<Byte>>) returns (bytes: nat)
      ensures bytes == SaturatedBytes(items)
    {
      bytes := 0;
      for i := 0 to |items|
        invariant bytes == SaturatedBytes(items[..i])
      {
        assert items[..i + 1][..i] == items[..i];
        bytes := SaturatingAdd(bytes, |items[i]|);
      }
      assert items[..|items|] == items;
    }

    method PublishSource(id: string, items: seq<seq<Byte>>, wire: seq<Byte>) returns (result: WriteResult)
      modifies this
      ensures (Contents(), result) == Core.PublishSource(lim, old(Contents()), id, items, wire)
    {
      hide SaturatedBytes, FrameBytes, LiveKept;
      if link.phase != Ready || !link.accepting || link.failed {
        return NotReady;
      }
      if id !in sourceStreams || sourceStreams[id].epoch != link.epoch {
        return UnknownStream;
      }
      var source := sourceStreams[id];
      if !source.open {
        return NotReady;
      }
      var bytes := SumBytes(items);
      if bytes == 0 || ChunkTooBig(source.endpoint, |items|, bytes) {
        return ChunkTooLarge;
      }
      if source.credit.messages < |items| || source.credit.bytes < bytes {
        return NoCredit;
      }
      if |workQueue| >= lim.maxWorkQueue {
        return QueueFull;
      }
      var frame := WorkFrame(SourceData(id, source.sequence + 1, items), wire);
      var size := WorkFrameBytes(frame);
      if lim.maxFrame == 0 || size > lim.maxFrame {
        return ChunkTooLarge;
      }
      var queued := QueueWork(frame);
      if !queued {
        return QueueFull;
      }
      sourceStreams := sourceStreams[id := source.(
        credit := Credit(source.credit.messages - |items|, source.credit.bytes - bytes),
            sequence := source.sequence + 1)];
      result := Accepted;
    }

    method CloseSource(id: string, problem: Option<AdapterError>, wire: seq<Byte>) returns (closed: bool)
      modifies this
      ensures (Contents(), closed) == Core.CloseSource(lim, old(Contents()), id, problem, wire)
    {
      hide EndLive, LiveKept, IsTypedError;
      if id !in sourceStreams || !sourceStreams[id].open || sourceStreams[id].epoch != link.epoch || link.failed
         || link.stopping || (problem.Some? && !IsTypedError(problem.value)) || |workQueue| >= lim.maxWorkQueue {
        return false;
      }
      closed := EndSource(id, WorkFrame(SourceClose(id, sourceStreams[id].sequence, problem), wire));
    }

    method HandleCancellation(identity: Identity, reason: string, wire: seq<Byte>) returns (result: CancelResult)
      modifies this
      ensures (Contents(), result) == Core.HandleCancellation(lim, old(Contents()), identity, reason, wire)
    {
      hide Core.CommitSourceTerminal, PeerCancelled, LiveKept;
      if identity.NoIdentity? || identity.id == "" {
        return CancelViolation;
      }
      var id := identity.id;
      if identity.WorkId? {
        if id in workTokens {
          requested := requested + {workTokens[id].ticket};
        }
        return CancelDone;
      }
      if id !in sourceStreams {
        return if id in closedSources && closedSources[id].epoch == link.epoch then CancelDone else CancelViolation;
      }
      var source := sourceStreams[id];
      if source.epoch != link.epoch {
        return CancelViolation;
      }
      requested := requested + {source.ticket};
      if !source.open {
        return CancelDone;
      }
      if |workQueue| >= lim.maxWorkQueue {
        return CancelFailsPair;
      }
      var ended := EndSource(id, WorkFrame(SourceClose(id, source.sequence, Some(PeerCancelled(reason))), wire));
      result := if ended then CancelNotifies(source.ticket) else CancelFailsPair;
    }

    /** Queues the terminal of a live source and moves the source to the closed table. */
    method EndSource(id: string, frame: WorkFrame) returns (ended: bool)
      requires id in sourceStreams
      modifies this
      ensures var r := EndLive(lim, old(Contents()), id, frame);
              ended == r.Some? && Contents() == if ended then r.value else old(Contents())
    {
      hide Core.CommitSourceTerminal, LiveKept;
      ended := CommitSourceTerminal(id, sourceStreams[id], frame);
      if ended {
        sourceStreams := sourceStreams - {id};
      }
    }

    /** The source must still be the one the job was queued for. */
    method SettleSourceOpen(job: Job, decision: OpenDecision, wire: seq<Byte>) returns (result: OpenResult)
      modifies this
      ensures (Contents(), result) == Core.SettleSourceOpen(lim, old(Contents()), job, decision, wire)
    {
      hide Core.QueueWork, EndLive, LiveKept, FrameBytes;
      var id := job.workId;
      if id !in sourceStreams || sourceStreams[id].epoch != job.epoch || sourceStreams[id].ticket != job.ticket {
        return OpenGone;
      }
      if link.failed || link.stopping || link.epoch != job.epoch {
        return OpenGone;
      }
      if |workQueue| >= lim.maxWorkQueue {
        return OpenFailsPair;
      }
      var frame := OpenFrame(id, decision, wire);
      if decision.accepted {
        var bytes := WorkFrameBytes(frame);
        if lim.maxFrame == 0 || bytes > lim.maxFrame {
          return OpenFailsPair;
        }
        var source := sourceStreams[id];
        var queued := QueueWork(frame);
        if !queued {
          return OpenFailsPair;
        }
        sourceStreams := sourceStreams[id := source.(open := true, credit := job.credit)];
        result := Opened;
      } else {
        var ended := EndSource(id, frame);
        result := if ended then OpenRefused(decision.error.class_.Cancelled?) else OpenFailsPair;
      }
    }

    /** False stands for a protocol error sent back to the Host. */
    method GrantSourceCredit(id: string, acknowledged: nat, grant: Credit) returns (granted: bool)
      modifies this`sourceStreams, this`closedSources
      ensures (Contents(), granted) == Core.GrantSourceCredit(old(Contents()), id, acknowledged, grant)
    {
      if id == "" || grant.messages == 0 || grant.bytes == 0 {
        return false;
      }
      if id !in sourceStreams {
        if id !in closedSources || closedSources[id].epoch != link.epoch
           || acknowledged < closedSources[id].acknowledged || acknowledged > closedSources[id].finalSequence {
          return false;
        }
        closedSources := closedSources[id := closedSources[id].(acknowledged := acknowledged)];
        return true;
      }
      var source := sourceStreams[id];
      if !source.open || source.epoch != link.epoch || acknowledged < source.acknowledged
          || acknowledged > source.sequence
         || grant.messages > U64_MAX - source.credit.messages || grant.bytes > U64_MAX - source.credit.bytes {
        return false;
      }
      var credit := Credit(source.credit.messages + grant.messages, source.credit.bytes + grant.bytes);
      sourceStreams := sourceStreams[id := source.(acknowledged := acknowledged, credit := credit)];
      granted := true;
    }

    method HandleTerminalAcknowledgement(identity: Identity, digest: string) returns (ok: bool)
      modifies this
      ensures (Contents(), ok) == AcknowledgeTerminal(old(Contents()), identity, digest)
    {
      if !Digest.IsCanonicalSha256(digest) || identity.NoIdentity? || identity.id == "" {
        return false;
      }
      var id := identity.id;
      if id in workTokens || id in sourceStreams {
        return false;
      }
      if identity.WorkId? {
        if id in closedSources {
          return false;
        }
        if id in replay {
          if replay[id].digest != digest {
            return false;
          }
          replayBytes := Minus(replayBytes, replay[id].bytes);
          replay := replay - {id};
        }
      } else {
        if id in replay {
          return false;
        }
        if id in closedSources {
          if closedSources[id].digest != digest {
            return false;
          }
          if closedSources[id].bytes <= sourceStateBytes {
            sourceStateBytes := sourceStateBytes - closedSources[id].bytes;
          } else {
            sourceStateBytes := 0;
          }
          closedSources := closedSources - {id};
        }
      }
      ok := true;
    }

    // Failure, deactivation and pair replacement.

    method CancelAllWork()
      modifies this`requested
      ensures Contents() == CancelAll(old(Contents()))
    {
      CancelTokens();
      CancelSources();
    }

    method CancelTokens()
      modifies this`requested
      ensures requested == old(requested) + set id | id in workTokens :: workTokens[id].ticket
    {
      var ids := workTokens.Keys;
      while ids != {}
        invariant ids <= workTokens.Keys
        invariant requested == old(requested) + (set id | id in workTokens.Keys - ids :: workTokens[id].ticket)
        decreases |ids|
      {
        var id :| id in ids;
        requested := requested + {workTokens[id].ticket};
        ids := ids - {id};
      }
    }

    method CancelSources()
      modifies this`requested
      ensures requested == old(requested) + set id | id in sourceStreams :: sourceStreams[id].ticket
    {
      var ids := sourceStreams.Keys;
      while ids != {}
        invariant ids <= sourceStreams.Keys
        invariant requested == old(requested) + (set id | id in sourceStreams.Keys - ids :: sourceStreams[id].ticket)
        decreases |ids|
      {
        var id :| id in ids;
        requested := requested + {sourceStreams[id].ticket};
        ids := ids - {id};
      }
    }

    method SignalSessionFailure()
      modifies this`link, this`requested
      ensures Contents() == SignalFailure(old(Contents()))
    {
      if !link.session || link.stopping || link.failed {
        return;
      }
      link := link.(failed := true, accepting := false, phase := Reconnecting);
      CancelAllWork();
    }

    /** No more Work is accepted, and all there is is cancelled. */
    method StopAccepting()
      modifies this`link, this`requested
      ensures Contents() == CancelAll(old(Contents()).(link := old(link).(accepting := false)))
    {
      hide CancelAll;
      link := link.(accepting := false);
      CancelAllWork();
    }

    method ForgetSources()
      modifies this`sourceStreams, this`closedSources, this`sourceStateBytes
      ensures Contents() == old(Contents()).(sources := Sources(map[], map[], 0))
    {
      sourceStreams, closedSources, sourceStateBytes := map[], map[], 0;
    }

    method DropJobs()
      modifies this`dispatchQueue, this`dispatchQueueBytes
      ensures Contents() == old(Contents()).(dispatch := [], dispatchBytes := 0)
    {
      dispatchQueue, dispatchQueueBytes := [], 0;
    }

    method DropFrames()
      modifies this`workQueue, this`workQueueBytes, this`taken
      ensures Contents() == old(Contents()).(outbox := ClearOutbox(old(Contents()).outbox))
    {
      workQueue, workQueueBytes, taken := [], 0, [];
    }

    /** The tables' part of a deactivation. */
    method DeactivateTables()
      modifies this
      ensures Contents() == Deactivate(old(Contents()))
    {
      hide CancelAll;
      StopAccepting();
      ForgetSources();
      activeCapabilities, activeSpec := map[], None;
    }

    method PreparePairReplacement()
      modifies this
      ensures Contents() == RetirePairTables(old(Contents()))
    {
      hide CancelAll;
      StopAccepting();
      sourceStreams := map[];
      DropJobs();
    }

    method ClearConnectionState()
      modifies this
      ensures Contents() == ClearConnection(old(Contents()))
    {
      hide ReleaseAllTokens, ClearOutbox;
      DropFrames();
      DropJobs();
      ReleaseEveryToken();
      link := link.(attachAllowed := false, pairReady := false, attachEpoch := 0, failed := false, accepting := false);
    }

    method PrepareConnectionPair()
      modifies this
      ensures Contents() == PreparePair(old(Contents()))
    {
      hide ClearConnection;
      ghost var cleared := ClearConnection(Contents());
      ClearConnectionState();
      assert Contents() == cleared;
      KeepsEpoch(old(Contents()));
      closedSources, sourceStateBytes := map[], 0;
      link := link.(phase := if link.epoch == 1 then Registered else Reconnecting);
    }

    static lemma KeepsEpoch(s: State)
      ensures ClearConnection(s).link.epoch == s.link.epoch
    {
    }
  }
}
