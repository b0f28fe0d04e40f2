/** Source streams over whole runs: what one admission queues, how its credit adds up, and what
    the Host's acknowledgements amount to. */
module Streams {
  import opened Base
  import opened Fips180
  import opened Protocol
  import opened Complaints
  import opened Core
  import opened Machine

  // The language of one admission.

  /** One accepting open result, then data numbered 1, 2, 3 and so on. */
  predicate Transcript(id: string, frames: seq<WorkFrame>) {
    && |frames| > 0
    && frames[0].body.SourceOpenResult? && frames[0].body.streamId == id && frames[0].body.accepted
    && forall k :: 1 <= k < |frames| ==> DataFrame(frames[k], id, k)
  }

  predicate DataFrame(frame: WorkFrame, id: string, k: nat) {
    frame.body.SourceData? && frame.body.streamId == id && frame.body.sequence == k
  }

  /** A rejecting open result ends an admission that sent nothing; a close ends one whose last
      data number it names. */
  predicate Ends(id: string, before: seq<WorkFrame>, terminal: WorkFrame) {
    if |before| == 0
    then terminal.body.SourceOpenResult? && terminal.body.streamId == id && !terminal.body.accepted
    else
      && Transcript(id, before)
      && terminal.body.SourceClose? && terminal.body.streamId == id && terminal.body.finalSequence == |before| - 1
  }

  /** Nothing follows the terminal but identical copies of it. */
  predicate WellTold(story: Story) {
    var frames := story.frames;
    if story.end.None? then |frames| == 0 || Transcript(story.id, frames)
    else
      var end := story.end.value;
      && end < |frames| && Ends(story.id, frames[..end], frames[end])
      && forall k :: end <= k < |frames| ==> frames[k] == frames[end]
  }

  /** The number of data frames. */
  function Sent(story: Story): nat {
    var n := if story.end.Some? then story.end.value else |story.frames|;
    if n == 0 then 0 else n - 1
  }

  predicate AcksOk(story: Story) {
    && (forall i, j :: 0 <= i < j < |story.acks| ==> story.acks[i] <= story.acks[j])
    && (forall i :: 0 <= i < |story.acks| ==> story.acks[i] <= Sent(story))
  }

  function Acknowledged(story: Story): nat {
    if |story.acks| == 0 then 0 else story.acks[|story.acks| - 1]
  }

  // Published volume.

  function TrueBytes(items: seq<seq<Byte>>): nat {
    if |items| == 0 then 0 else TrueBytes(items[..|items| - 1]) + |items[|items| - 1]|
  }

  function PublishedMessages(frames: seq<WorkFrame>): nat {
    if |frames| == 0 then 0
    else
      var last := frames[|frames| - 1].body;
      PublishedMessages(frames[..|frames| - 1]) + (if last.SourceData? then |last.items| else 0)
  }

  function PublishedBytes(frames: seq<WorkFrame>): nat {
    if |frames| == 0 then 0
    else
      var last := frames[|frames| - 1].body;
      PublishedBytes(frames[..|frames| - 1]) + (if last.SourceData? then TrueBytes(last.items) else 0)
  }

  /** The saturating sum is the true sum, cut off at the largest 64-bit number. */
  lemma {:induction false} SaturatedSum(items: seq<seq<Byte>>)
    ensures SaturatedBytes(items) == if TrueBytes(items) <= U64_MAX then TrueBytes(items) else U64_MAX
  {
    if |items| > 0 {
      SaturatedSum(items[..|items| - 1]);
    }
  }

  /** A positive 32-bit chunk limit keeps every accepted sum exact. */
  predicate ChunkOk(endpoint: Endpoint) { 0 < endpoint.maxChunkBytes < 0x1_0000_0000 }

  // The invariant.

  predicate LiveTold(id: string, source: Source, story: Story) {
    && story.id == id && story.endpoint == source.endpoint && story.end.None? && ChunkOk(source.endpoint)
    && source.acknowledged == Acknowledged(story) && source.acknowledged <= source.sequence
    && (if source.open then |story.frames| == source.sequence + 1 else |story.frames| == 0 && source.sequence == 0)
    && source.credit.messages + PublishedMessages(story.frames) == story.granted.messages
    && source.credit.bytes + PublishedBytes(story.frames) == story.granted.bytes
  }

  predicate ClosedTold(id: string, tombstone: Tombstone, story: Story) {
    && story.id == id && story.end.Some? && story.end.value < |story.frames|
    && story.frames[story.end.value] == tombstone.frame
    && tombstone.finalSequence == Sent(story)
    && tombstone.acknowledged == Acknowledged(story) && tombstone.acknowledged <= tombstone.finalSequence
  }

  predicate StoryOk(story: Story) { WellTold(story) && AcksOk(story) }

  ghost predicate StoriesOk(nextTicket: nat, stories: map<nat, Story>) {
    forall t :: t in stories ==> 0 < t < nextTicket && StoryOk(stories[t])
  }

  ghost predicate TablesTold(sources: Sources, stories: map<nat, Story>) {
    && (forall id :: id in sources.live ==>
          sources.live[id].ticket in stories && LiveTold(id, sources.live[id], stories[sources.live[id].ticket]))
    && (forall id :: id in sources.closed ==>
          sources.closed[id].ticket in stories
              && ClosedTold(id, sources.closed[id], stories[sources.closed[id].ticket]))
  }

  /** The live and closed sources agree with what was recorded about their admissions. */
  ghost predicate Told(core: State, history: History) {
    StoriesOk(core.nextTicket, history.stories) && TablesTold(core.sources, history.stories)
  }

  // Changes of one story.

  /** Only the story of one ticket changed, and it still is the story of `id`. */
  ghost predicate OneStory(before: map<nat, Story>, after: map<nat, Story>, t: nat, id: string) {
    && t in after && after[t].id == id && (t in before ==> before[t].id == id)
    && (forall u :: u in before ==> u in after)
    && (forall u :: u in after && u != t ==> u in before && after[u] == before[u])
  }

  /** Entries of other streams are not touched: a ticket belongs to one stream. */
  lemma OthersTold(before: Sources, after: Sources, stories: map<nat, Story>, later: map<nat, Story>, t: nat,
                   id: string)
    requires TablesTold(before, stories) && OneStory(stories, later, t, id)
    requires forall k :: k in after.live && k != id ==> k in before.live && after.live[k] == before.live[k]
    requires forall k :: k in after.closed && k != id ==> k in before.closed && after.closed[k] == before.closed[k]
    requires id in after.live ==> after.live[id].ticket == t && LiveTold(id, after.live[id], later[t])
    requires id in after.closed ==> after.closed[id].ticket == t && ClosedTold(id, after.closed[id], later[t])
    ensures TablesTold(after, later)
  {
    hide LiveTold, ClosedTold;
    forall k | k in after.live
      ensures after.live[k].ticket in later && LiveTold(k, after.live[k], later[after.live[k].ticket])
    {
      if k != id {
        LiveName(k, before.live[k], stories[before.live[k].ticket]);
      }
    }
    forall k | k in after.closed
      ensures after.closed[k].ticket in later && ClosedTold(k, after.closed[k], later[after.closed[k].ticket])
    {
      if k != id {
        ClosedName(k, before.closed[k], stories[before.closed[k].ticket]);
      }
    }
  }

  lemma LiveName(id: string, source: Source, story: Story)
    requires LiveTold(id, source, story)
    ensures story.id == id && story.end.None?
  {
  }

  lemma ClosedName(id: string, tombstone: Tombstone, story: Story)
    requires ClosedTold(id, tombstone, story)
    ensures story.id == id && story.end.Some?
  {
  }

  // Story steps.

  lemma TellOpen(story: Story, frame: WorkFrame)
    requires StoryOk(story) && story.end.None? && |story.frames| == 0
    requires frame.body.SourceOpenResult? && frame.body.streamId == story.id && frame.body.accepted
    ensures StoryOk(story.(frames := story.frames + [frame]))
    ensures PublishedMessages(story.frames + [frame]) == 0 && PublishedBytes(story.frames + [frame]) == 0
  {
    assert (story.frames + [frame])[..0] == [];
  }

  lemma TellData(story: Story, frame: WorkFrame)
    requires StoryOk(story) && story.end.None? && |story.frames| > 0
    requires DataFrame(frame, story.id, |story.frames|)
    ensures StoryOk(story.(frames := story.frames + [frame]))
    ensures PublishedMessages(story.frames + [frame]) == PublishedMessages(story.frames) + |frame.body.items|
    ensures PublishedBytes(story.frames + [frame]) == PublishedBytes(story.frames) + TrueBytes(frame.body.items)
  {
    assert (story.frames + [frame])[..|story.frames|] == story.frames;
  }

  lemma TellEnd(story: Story, frame: WorkFrame)
    requires StoryOk(story) && story.end.None? && Ends(story.id, story.frames, frame)
    ensures var told := story.(frames := story.frames + [frame], end := Some(|story.frames|));
            StoryOk(told) && Sent(told) == Sent(story)
  {
    assert (story.frames + [frame])[..|story.frames|] == story.frames;
  }

  lemma TellReplay(story: Story, frame: WorkFrame)
    requires StoryOk(story) && story.end.Some? && story.end.value < |story.frames|
             && frame == story.frames[story.end.value]
    ensures var told := story.(frames := story.frames + [frame]);
            StoryOk(told) && Sent(told) == Sent(story) && told.frames[told.end.value] == frame
  {
    assert (story.frames + [frame])[..story.end.value] == story.frames[..story.end.value];
  }

  lemma Acked(story: Story, granted: Credit, ack: nat)
    requires StoryOk(story) && Acknowledged(story) <= ack <= Sent(story)
    ensures StoryOk(story.(granted := granted, acks := story.acks + [ack]))
  {
    hide Transcript, Ends;
    if |story.acks| > 0 {
      assert forall i :: 0 <= i < |story.acks| ==> story.acks[i] <= story.acks[|story.acks| - 1];
    }
  }

  // Sections.

  ghost predicate Apart(sources: Sources) { forall id :: id in sources.live ==> id !in sources.closed }

  /** A section that changes one admission keeps the whole if it keeps that admission. */
  lemma Retold(core: State, history: History, after: State, later: History, t: nat, id: string)
    requires Told(core, history) && core.nextTicket <= after.nextTicket
    requires OneStory(history.stories, later.stories, t, id) && 0 < t < after.nextTicket && StoryOk(later.stories[t])
    requires forall k :: k in after.sources.live && k != id ==>
               k in core.sources.live && after.sources.live[k] == core.sources.live[k]
    requires forall k :: k in after.sources.closed && k != id ==>
               k in core.sources.closed && after.sources.closed[k] == core.sources.closed[k]
    requires id in after.sources.live ==>
               after.sources.live[id].ticket == t && LiveTold(id, after.sources.live[id], later.stories[t])
    requires id in after.sources.closed ==>
               after.sources.closed[id].ticket == t && ClosedTold(id, after.sources.closed[id], later.stories[t])
    ensures Told(after, later)
  {
    hide StoryOk, LiveTold, ClosedTold;
    OthersTold(core.sources, after.sources, history.stories, later.stories, t, id);
  }

  /** An accepted publish takes exactly its volume off the credit and numbers its frame. */
  lemma DataTold(id: string, source: Source, story: Story, items: seq<seq<Byte>>, frame: WorkFrame)
    requires LiveTold(id, source, story) && StoryOk(story) && source.open
    requires !ChunkTooBig(source.endpoint, |items|, SaturatedBytes(items))
    requires |items| <= source.credit.messages && SaturatedBytes(items) <= source.credit.bytes
    requires DataFrame(frame, id, source.sequence + 1) && frame.body.items == items
    ensures var told := story.(frames := story.frames + [frame]);
            StoryOk(told) && LiveTold(id, Spend(source, items), told)
  {
    hide StoryOk, TrueBytes, PublishedMessages, PublishedBytes, SaturatedBytes;
    SaturatedSum(items);
    TellData(story, frame);
  }

  lemma PublishTold(lim: Limits, sys: System, id: string, items: seq<seq<Byte>>, wire: seq<Byte>)
    requires Told(sys.core, sys.history) && Apart(sys.core.sources)
    ensures var r := AppPublish(lim, sys, id, items, wire); Told(r.core, r.history)
  {
    hide QueueWork, StoryOk, SaturatedBytes, LiveTold, ClosedTold, FramedBytes, ChunkTooBig, LiveKept, SamePair,
      SameSpec;
    if PublishSource(lim, sys.core, id, items, wire).1.Accepted? {
      var source, r := sys.core.sources.live[id], AppPublish(lim, sys, id, items, wire);
      var story := sys.history.stories[source.ticket];
      LiveName(id, source, story);
      DataTold(id, source, story, items, WorkFrame(SourceData(id, source.sequence + 1, items), wire));
      Retold(sys.core, sys.history, r.core, r.history, source.ticket, id);
    }
  }

  function Concluded(story: Story, frame: WorkFrame): Story {
    story.(frames := story.frames + [frame], end := Some(|story.frames|))
  }

  predicate Terminates(id: string, source: Source, frame: WorkFrame) {
    if source.open
    then frame.body.SourceClose? && frame.body.streamId == id && frame.body.finalSequence == source.sequence
    else frame.body.SourceOpenResult? && frame.body.streamId == id && !frame.body.accepted
  }

  /** The terminal names the last data number, and the tombstone remembers it. */
  lemma EndTold(lim: Limits, id: string, source: Source, story: Story, frame: WorkFrame)
    requires LiveTold(id, source, story) && StoryOk(story) && Terminates(id, source, frame)
    ensures StoryOk(Concluded(story, frame)) && ClosedTold(id, Entomb(lim, source, frame), Concluded(story, frame))
  {
    hide AcksOk, PublishedMessages, PublishedBytes;
    TellEnd(story, frame);
  }

  lemma OpenedTold(id: string, source: Source, story: Story, frame: WorkFrame, credit: Credit)
    requires LiveTold(id, source, story) && StoryOk(story) && !source.open && source.credit == Credit(0, 0)
    requires frame.body.SourceOpenResult? && frame.body.streamId == id && frame.body.accepted
    ensures var granted := Credit(story.granted.messages + credit.messages, story.granted.bytes + credit.bytes);
            var told := story.(frames := story.frames + [frame], granted := granted, acks := story.acks + []);
            StoryOk(told) && LiveTold(id, source.(open := true, credit := credit), told)
  {
    TellOpen(story, frame);
    assert story.acks + [] == story.acks;
  }

  lemma AcceptTold(sys: System, r: System, id: string, frame: WorkFrame, credit: Credit)
    requires Told(sys.core, sys.history) && Apart(sys.core.sources) && id in sys.core.sources.live
    requires var source := sys.core.sources.live[id];
             && !source.open && source.credit == Credit(0, 0)
             && frame.body.SourceOpenResult? && frame.body.streamId == id && frame.body.accepted
             && r.core.sources == SetLive(sys.core, id, source.(open := true, credit := credit)).sources
             && r.core.nextTicket == sys.core.nextTicket
             && r.history == Credited(Tell(sys.history, source.ticket, frame), source.ticket, credit, [])
    ensures Told(r.core, r.history)
  {
    hide StoryOk, LiveTold, ClosedTold;
    var source := sys.core.sources.live[id];
    var story := sys.history.stories[source.ticket];
    LiveName(id, source, story);
    OpenedTold(id, source, story, frame, credit);
    Retold(sys.core, sys.history, r.core, r.history, source.ticket, id);
  }

  lemma ConcludeTold(lim: Limits, sys: System, r: System, id: string, frame: WorkFrame)
    requires Told(sys.core, sys.history) && id in sys.core.sources.live
    requires var source := sys.core.sources.live[id];
             && Terminates(id, source, frame)
             && r.core.sources == DropLive(RememberClosedSource(lim, sys.core, id, source, frame), id).sources
             && r.core.nextTicket == sys.core.nextTicket
             && r.history.stories == Conclude(sys.history, source.ticket, frame).stories
    ensures Told(r.core, r.history)
  {
    hide StoryOk, LiveTold, ClosedTold, Terminates;
    var source := sys.core.sources.live[id];
    var story := sys.history.stories[source.ticket];
    LiveName(id, source, story);
    EndTold(lim, id, source, story, frame);
    Retold(sys.core, sys.history, r.core, r.history, source.ticket, id);
  }

  lemma CloseTold(lim: Limits, sys: System, id: string, problem: Option<AdapterError>, wire: seq<Byte>)
    requires Told(sys.core, sys.history)
    ensures var r := AppClose(lim, sys, id, problem, wire); Told(r.core, r.history)
  {
    hide CommitSourceTerminal, Told, LiveKept, SamePair, SameSpec, IsTypedError, Conclude;
    if CloseSource(lim, sys.core, id, problem, wire).1 {
      ConcludeTold(lim, sys, AppClose(lim, sys, id, problem, wire), id, CloseFrame(sys.core, id, problem, wire));
    }
  }

  lemma CancelTold(lim: Limits, sys: System, identity: Identity, reason: string, wire: seq<Byte>)
    requires Told(sys.core, sys.history)
    ensures var r := HandleCancel(lim, sys, identity, reason, wire); Told(r.core, r.history)
  {
    hide CommitSourceTerminal, Told, ReaderFrame, PeerCancelled, Conclude;
    var result := HandleCancellation(lim, sys.core, identity, reason, wire);
    var r := HandleCancel(lim, sys, identity, reason, wire);
    if result.1.CancelNotifies? {
      var frame := CloseFrame(sys.core, identity.id, Some(PeerCancelled(reason)), wire);
      ConcludeTold(lim, sys, r, identity.id, frame);
    } else {
      FewerTold(sys.core, sys.history, r.core, r.history);
    }
  }

  /** Accepting grants the initial credit; refusing ends the admission with its only frame. */
  lemma SettleTold(lim: Limits, sys: System, w: nat)
    requires Told(sys.core, sys.history) && Apart(sys.core.sources)
    requires w < |sys.workers| && sys.workers[w].OpenSettling? && sys.workers[w].job.kind.SourceOpen?
    requires Fresh(sys.core, sys.workers[w].job)
    ensures var r := SettleOpen(lim, sys, w); Told(r.core, r.history)
  {
    hide CommitSourceTerminal, QueueWork, FramedBytes, WorkerFrame, Told, Apart, Conclude, Credited, Tell;
    var pc := sys.workers[w];
    var job, id := pc.job, pc.job.workId;
    var result, r := SettleSourceOpen(lim, sys.core, job, pc.decision, pc.wire), SettleOpen(lim, sys, w);
    if result.1.Opened? {
      AcceptTold(sys, r, id, OpenFrame(id, pc.decision, pc.wire), job.credit);
    } else if result.1.OpenRefused? {
      ConcludeTold(lim, sys, r, id, OpenFrame(id, pc.decision, pc.wire));
    }
  }

  /** A job that is still to be settled finds its source unopened and without credit. */
  predicate Fresh(core: State, job: Job) {
    var live := core.sources.live;
    job.kind.SourceOpen? && job.workId in live && live[job.workId].ticket == job.ticket ==>
      !live[job.workId].open && live[job.workId].credit == Credit(0, 0)
  }

  lemma NewTold(id: string, source: Source)
    requires !source.open && source.credit == Credit(0, 0) && source.sequence == 0 && source.acknowledged == 0
    requires ChunkOk(source.endpoint)
    ensures var story := Story(id, source.endpoint, [], None, Credit(0, 0), []);
            StoryOk(story) && LiveTold(id, source, story)
  {
  }

  lemma RefusedTold(lim: Limits, id: string, source: Source, frame: WorkFrame)
    requires source.sequence == 0 && source.acknowledged == 0
    requires frame.body.SourceOpenResult? && frame.body.streamId == id && !frame.body.accepted
    ensures var story := Story(id, NO_ENDPOINT, [frame], Some(0), Credit(0, 0), []);
            StoryOk(story) && ClosedTold(id, Entomb(lim, source, frame), story)
  {
  }

  /** The active grants' source endpoints have positive 32-bit chunk limits. */
  ghost predicate ChunksOk(core: State) {
    forall c, e ::
      c in core.active && e in core.active[c].endpoints && core.active[c].endpoints[e].mode == SourceOpen ==>
        ChunkOk(core.active[c].endpoints[e])
  }

  lemma OpenTold(lim: Limits, sys: System, job: Job, expired: bool, wire: seq<Byte>)
    requires Told(sys.core, sys.history) && ChunksOk(sys.core) && sys.core.nextTicket > 0
    ensures var r := HandleOpen(lim, sys, job, expired, wire); Told(r.core, r.history)
  {
    hide CommitSourceTerminal, JudgeSourceOpen, ValidateWorkContext, StoryOk, LiveTold, ClosedTold, ReaderFrame,
      Explain, SourceFits;
    var open, id, core := job.(kind := SourceOpen), job.workId, sys.core;
    var result := EnqueueSourceOpen(lim, core, open, expired, wire);
    var r := HandleOpen(lim, sys, job, expired, wire);
    if result.1.Admitted? {
      NewTold(id, result.0.sources.live[id]);
      Retold(core, sys.history, r.core, r.history, core.nextTicket, id);
    } else if result.1.Reject? {
      RefusedTold(lim, id, NewSource(core, lim, open, NO_ENDPOINT, 0), RefusalFrame(id, result.1.complaint, wire));
      Retold(core, sys.history, r.core, r.history, core.nextTicket, id);
    }
  }

  lemma CreditTold(sys: System, id: string, acknowledged: nat, grant: Credit, wire: seq<Byte>)
    requires Told(sys.core, sys.history) && Apart(sys.core.sources)
    ensures var r := HandleCredit(sys, id, acknowledged, grant, wire); Told(r.core, r.history)
  {
    hide StoryOk, ReaderFrame, PublishedMessages, PublishedBytes, WellTold, AcksOk, TablesTold, StoriesOk;
    var core := sys.core;
    var result := GrantSourceCredit(core, id, acknowledged, grant);
    if result.1 {
      var r := HandleCredit(sys, id, acknowledged, grant, wire);
      if id in core.sources.live {
        GrantTold(sys, id, acknowledged, grant, r);
      } else {
        LateTold(sys, id, acknowledged, r);
      }
    }
  }

  lemma GrantTold(sys: System, id: string, acknowledged: nat, grant: Credit, r: System)
    requires Told(sys.core, sys.history) && Apart(sys.core.sources) && id in sys.core.sources.live
    requires var source := sys.core.sources.live[id];
             && source.open && source.acknowledged <= acknowledged <= source.sequence
             && r.core == SetLive(sys.core, id, source.(
                  acknowledged := acknowledged,
                  credit := Credit(source.credit.messages + grant.messages, source.credit.bytes + grant.bytes)))
             && r.history == Credited(sys.history, source.ticket, grant, [acknowledged])
    ensures Told(r.core, r.history)
  {
    hide StoryOk, PublishedMessages, PublishedBytes;
    var source := sys.core.sources.live[id];
    var story := sys.history.stories[source.ticket];
    Acked(story, Credit(story.granted.messages + grant.messages, story.granted.bytes + grant.bytes), acknowledged);
    Retold(sys.core, sys.history, r.core, r.history, source.ticket, id);
  }

  lemma LateTold(sys: System, id: string, acknowledged: nat, r: System)
    requires Told(sys.core, sys.history) && id in sys.core.sources.closed && id !in sys.core.sources.live
    requires var tombstone := sys.core.sources.closed[id];
             && tombstone.acknowledged <= acknowledged <= tombstone.finalSequence
             && r.core == sys.core.(sources := sys.core.sources.(
                  closed := sys.core.sources.closed[id := tombstone.(acknowledged := acknowledged)]))
             && r.history == Credited(sys.history, tombstone.ticket, Credit(0, 0), [acknowledged])
    ensures Told(r.core, r.history)
  {
    hide StoryOk, WellTold;
    var tombstone := sys.core.sources.closed[id];
    var story := sys.history.stories[tombstone.ticket];
    Acked(story, story.granted, acknowledged);
    Retold(sys.core, sys.history, r.core, r.history, tombstone.ticket, id);
  }

  /** Tables that only lose entries stay told. */
  lemma FewerTold(core: State, history: History, after: State, later: History)
    requires Told(core, history) && later.stories == history.stories && core.nextTicket <= after.nextTicket
    requires forall k :: k in after.sources.live ==>
               k in core.sources.live && after.sources.live[k] == core.sources.live[k]
    requires forall k :: k in after.sources.closed ==>
               k in core.sources.closed && after.sources.closed[k] == core.sources.closed[k]
    ensures Told(after, later)
  {
    hide StoryOk, LiveTold, ClosedTold;
  }

  lemma AckTold(sys: System, identity: Identity, digest: string, wire: seq<Byte>)
    requires Told(sys.core, sys.history)
    ensures var r := HandleAck(sys, identity, digest, wire); Told(r.core, r.history)
  {
    hide ReaderFrame, Told;
    var r := HandleAck(sys, identity, digest, wire);
    FewerTold(sys.core, sys.history, r.core, r.history);
  }

  /** A redelivered open is answered with the retained terminal of its own admission. */
  ghost predicate ReplayTold(history: History, reader: Reader) {
    reader.Sending? && reader.ticket in history.stories ==>
      var story := history.stories[reader.ticket];
      story.end.Some? && story.end.value < |story.frames| && story.frames[story.end.value] == reader.frame
  }

  lemma SendTold(lim: Limits, sys: System)
    requires Told(sys.core, sys.history) && ReplayTold(sys.history, sys.reader)
    ensures var r := MoveReader(lim, sys); Told(r.core, r.history)
  {
    hide ReaderFrame, QueueWork, CommitTerminal, StoryOk, LiveTold, ClosedTold, Tickets, Told;
    var r := MoveReader(lim, sys);
    if sys.reader.Sending? && r.history != sys.history {
      RepeatTold(sys, sys.reader.ticket, sys.reader.frame, r);
    } else {
      FewerTold(sys.core, sys.history, r.core, r.history);
    }
  }

  lemma RepeatTold(sys: System, t: nat, frame: WorkFrame, r: System)
    requires Told(sys.core, sys.history) && t in sys.history.stories && ReplayTold(sys.history, Sending(frame, t))
    requires r.history == Tell(sys.history, t, frame)
    requires r.core.sources == sys.core.sources && r.core.nextTicket == sys.core.nextTicket
    ensures Told(r.core, r.history)
  {
    hide StoryOk, LiveTold;
    TellReplay(sys.history.stories[t], frame);
    var id := sys.history.stories[t].id;
    var live, closed := sys.core.sources.live, sys.core.sources.closed;
    forall k | k in live ensures live[k].ticket != t {
      LiveName(k, live[k], sys.history.stories[live[k].ticket]);
    }
  }
}
