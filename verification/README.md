# The Runtime Link client, modelled and proved in Dafny

This project models the connection side of the Adapter Runtime client: the C++ class `Client::Impl` in
`src/`, with its Work reader, its Control and Work writers, its pool of dispatch workers, its supervisor and
the application that calls into it. It proves what the client promises over every run of these threads:
exact accounting, durable terminals, credit, ordered streams, balanced callbacks, bounded reconnection.

## How the model is built

- `Core.dfy` holds the state the client's mutex guards, and one function for each critical section: state
  before, inputs, state after and the answer. The order of the checks is the order of the source.
- `Client.dfy` is the same state as an object with mutable fields. Its methods are the sections in their
  imperative form, with their loops, and each is proved to leave exactly the state that the section's
  function gives.
- `Machine.dfy` gives every thread a program counter and makes each critical section, and each callback into
  the application, one step; `Step` hands each action to the function of the thread it belongs to. An action
  carries what the environment decides: frames of the Host, clocks, schema checks, handler results and
  exceptions, outcomes of stream writes; an action that is not enabled changes nothing. Ghost histories record
  callbacks, handler entries, source admissions, notices, acknowledgements, pairs and pauses. A run (`IsRun`)
  is the states and actions from the initial state on: every list of actions has one (`EveryListRuns`), and
  its states are the ones the actions lead to (`RunIsExec`).
- `Tables`, `Threads`, `Accounts`, `Lifetimes`, `Transactions`, `Streams`, `Jobs`, `Admissions`, `Ledgers`,
  `Logs` and `Custody` say what each step keeps. `Runs`, `Notices`, `Works`, `Endings`, `Stories`, `Durable`,
  `Keeping`, `Identities`, `Wires`, `Supervision` and `Repeats` state the results about whole runs: each holds
  at every position, or for every two positions, of every run, for every configuration and every number of
  workers. `Witnesses` has the runs that show where a stronger claim fails.
- `Fips180.dfy` defines SHA-256 by sections 5.1.1, 5.2.1, 5.3.3 and 6.2.2 of FIPS 180-4, and `Digest.dfy`
  proves the streaming implementation against it. `Protocol.dfy` holds the frames, the text rules and the
  encoded sizes of the Protocol Buffers encoding; `Complaints.dfy` every error the client itself composes,
  with its class, code and message; `Results.dfy` what is made of handler results.

Points where the code and the documentation differ, or where a stronger claim would be false:

- docs/design.md:72-75 says that a connection attempt without a valid Control frame retries its epoch. The
  code advances the epoch on every retry (src/session.cpp:287-297), and so does the model.
- One id can name two things at once. The not-ready branch of `EnqueueDispatch` comes before the checks of
  active identities (src/dispatch.cpp:271-282), so the refusal of a repeated request can be retained for
  outstanding Work (`Witnesses.OutstandingAndRetained`); and admission of Work does not look at closed sources
  (`Witnesses.OutstandingAndClosed`). `Identities.DisjointExactly` gives the exact condition, on the states
  before each step, for every run, and `Identities.FreshIsDisjoint` shows that a Host that uses fresh ids
  meets it.
- Workers erase tokens by id alone (src/source_dispatch.cpp:168-172). No admitted Work is lost by that
  (`Keeping.WorkNeverLost` asks nothing of the Host), but a token can be: if the Host acknowledges a terminal
  and uses the id again before the worker of the first job has erased its token, the second job's token goes
  (`Witnesses.TokenLostReached`). `Keeping.TokenLostExactly` says exactly which steps lose a token, and
  `Keeping.CustodyExact` exactly which runs keep every job with its own token.
- A delay of 2^31 milliseconds or more doubles to a small one in 32 bits (src/session_state.cpp:83-89).
  `Supervision.BackoffFormula` gives the exact condition under which the delays follow the documented formula,
  and `Supervision.BackoffWraps` a configuration that breaks it.
- Preflight measures a frame with the largest 64-bit sequence number, so its soundness is stated for sequence
  numbers that fit 64 bits.

## Model

| member | source | states |
|---|---|---|
| Digest.HashChunks | src/digest.cpp:45-139 | feeding any list of chunks through `Update` and `Finish` returns the one-shot SHA-256 of their concatenation |
| Digest.ComputeTerminalDigest | src/digest.cpp:149-182 | a message that cannot be encoded has no digest; otherwise the digest is "sha256:" and the lower-case hexadecimal of the hash of type name, NUL and encoding |
| Digest.PreimageInjective | src/digest.cpp:166-172 | for type names without NUL the hashed bytes determine the name and the encoding |
| Machine.RunIsExec | src/session.cpp:197-304 | the states of a run are those its actions lead to, one thread's section or callback at a time |
| Machine.EveryListRuns | src/session.cpp:197-304 | whatever the threads and the environment do, in any order, is a run |
| Protocol.PreflightIsUpperBound | src/queue.cpp:136-147 | a frame stamped with any 64-bit sequence number is no longer than when measured with the largest one |
| Protocol.IsCanonicalIdentifier | src/internal.hpp:124-142 | the loop with its separator flag accepts exactly the strings that start with a letter and use single separators inside only |
| Complaints.ComplaintTyped | src/internal.hpp:178-184 | every error the client composes itself has a class, a canonical identifier as code and canonical text as message |
| Results.UnaryReplyWellFormed | src/dispatch.cpp:503-548 | whatever a unary handler returns or throws, success has output that meets the contract and failure a typed error and no output |
| Results.OperationTerminalWellFormed | src/dispatch.cpp:590-640 | whatever an operation handler returns or throws, the terminal phase agrees with the error class, success has no error and failure no output |
| Results.OpenOutcomeWellFormed | src/source_dispatch.cpp:50-92 | an open outcome either accepts without an error and with at most an initial payload that matches the schema and the response limit, or carries a typed error alone; a cancelled one never accepts |
| Results.RejectedDispatchWellFormed | src/source_dispatch.cpp:174-199 | whatever the client complains of, the terminal of Work that is turned away is well formed, and so is the compact one that replaces a terminal too large |
| Tables.ReleaseOk | src/queue.cpp:250-261 | releasing a token takes exactly its reservation off the counter and keeps the accounting exact |
| Runs.SafeRun | src/client_impl.hpp:296-347 | every reachable state satisfies all the invariants: counters, pair phases, accounting, callback trace, committed specs, source stories |
| Runs.ReplayAccounting | src/queue.cpp:155-270 | in every reachable state the replay counter is the retained entries plus the outstanding reservations, within the byte and identity budgets |
| Runs.SourceAccounting | src/dispatch.cpp:103-229 | on an open pair the source counter is exactly what live and closed sources hold, between pairs never less, always within its bounds; live sources are disjoint from tombstones and Work tokens |
| Runs.QueueAccounting | src/queue.cpp:100-121 | the byte counters of the Work and dispatch queues are the sums of their entries, within their bounds |
| Runs.NoUnderflow | src/queue.cpp:250-270 | no counter is ever asked for more than it holds: the clamp branches and wrap-arounds are unreachable |
| Runs.CommitsInOrder | src/spec.cpp:56-97 | the committed specs of a session begin with the bootstrap spec, never go back in revision, and two of one revision are equal, also when transactions fail after deactivation |
| Runs.CallbacksBracketed | src/spec.cpp:429-466 | in every interleaving a handler is entered after a start of its capability with no stop in between, and every stop and clear finds all handlers returned and, for a clear, all capabilities stopped |
| Runs.Quiescence | src/spec.cpp:508-512 | from the end of deactivation's wait to the next commit, also after a failed transaction, no spec is current and no worker is in a handler or bound to enter one; the trace has no entry between a stop and the next commit |
| Runs.UnwindsInReverse | src/spec.cpp:145-189 | of two capabilities of an aborted candidate, the one started first is stopped last |
| Runs.BalancedCallbacks | src/spec.cpp:109-189 | starts and stops, applies and clears, entries and returns are balanced at any time up to the ones in progress, and exactly when the supervisor is done |
| Repeats.RepeatedSpecSilent | src/spec.cpp:69-85 | applying the current spec again succeeds and, until the next spec or a teardown, makes no lifecycle callback in any interleaving |
| Repeats.EnteredOnce | src/dispatch.cpp:334-435 | in any run each handler entry in the trace belongs to an admitted job, and no job enters a handler twice |
| Repeats.HandlersBound | src/dispatch.cpp:164-166 | Work that passes its context check always finds its handler bound: the handler-not-bound refusal is unreachable |
| Streams.SaturatedSum | src/stream.cpp:37-40 | the saturating byte sum is the true sum cut off at the largest 64-bit number |
| Runs.SourceTranscripts | src/stream.cpp:19-103 | every source admission of every run queues one rejecting result, or an accepting one, data 1 to n and at most one close that names n, then only copies of the terminal; acknowledged numbers never decrease or pass what was sent |
| Stories.LogTellsStories | src/stream.cpp:324-351 | the source frames of the log of everything ever queued are an interleaving of the recorded stories: each frame belongs to exactly one, and each story is its frames in queue order |
| Stories.AcceptedOpensWellFormed | src/source_dispatch.cpp:93-126 | every source frame ever queued belongs to an admission, and an accepting open result carries no error and at most an initial payload that meets the contract of the endpoint the source was opened on |
| Runs.CreditConserved | src/stream.cpp:105-146 | the credit left to a live source and what it published add up to what it was granted; a tombstone names its last data number and acknowledgement |
| Notices.NotifiedOnce | src/stream.cpp:302-308 | over any run each source admission is owed or delivered at most one closing notice, none while it is live and none after the application closed it |
| Endings.SourceTerminalsWellFormed | src/stream.cpp:324-351 | every terminal retained for a source is a refusal with a typed error and no payload, or a close with no error or a typed one |
| Works.WorksRun | src/dispatch.cpp:334-435 | in every reachable state a job that carries its token's ticket holds the reservation of its fingerprint, and whatever waits to be committed or repeated is well formed |
| Works.RetainedWellFormed | src/dispatch.cpp:503-654 | every retained terminal of every run is well formed for the endpoint that ran, matches its request's kind and carries its own digest |
| Works.ReservationEnough | src/queue.cpp:155-227 | a worker committing the terminal of a job that owns its token is told too large exactly for an oversized frame, and commits exactly when the frame fits, can be encoded, the link works and the queue has room |
| Durable.TerminalDurable | src/dispatch.cpp:255-268 | a retained terminal is unchanged over any further run and any number of pairs until its exact digest is acknowledged or the session is reset; meanwhile only its frame is queued as a terminal of the id, and no job of the id is admitted |
| Keeping.WorkNeverLost | src/dispatch.cpp:334-435 | a unary or operation job that is queued or in hand on a working pair is, as long as that pair works, still queued or in hand, or its terminal was retained and then perhaps acknowledged, whatever the Host does |
| Keeping.TokenLostExactly | src/source_dispatch.cpp:168-172 | in every reachable state a step on a pair that keeps working loses the token of an unanswered id if and only if it is the epilogue of a worker that is done with a job of that id; such a step records nothing and leaves the queue as it was |
| Keeping.AcceptsExactly | src/dispatch.cpp:247-332 | a step hands out a token of an id exactly if it is a request for Work of that id that the reader hears and that passes every check of admission |
| Keeping.CustodyExact | src/dispatch.cpp:416-435 | in a run every job on a working pair owns its token, every token is attended by its job and every job wrapped up was answered, if and only if no request that passes admission names an id whose old token a worker is about to erase |
| Keeping.TokenKept | src/queue.cpp:192-214 | in such a careful run a token stays, attended by its job, as long as the pair works, or the job's terminal was retained and then perhaps acknowledged |
| Keeping.NothingDisappears | src/stream.cpp:148-180 | the same for every run of a Host that does not use an acknowledged id again |
| Witnesses.TokenLostReached | src/source_dispatch.cpp:168-172 | a run reaches a state in which the token of a queued job is erased by the worker of an earlier job of the same id |
| Identities.ClashesExactly | src/queue.cpp:155-227 | what the guards decide before a step is what shows after it: a request passes admission under the id of a closed source, or a terminal passes the commit section for an id in use other than by its own job's token |
| Identities.DisjointExactly | src/dispatch.cpp:255-282 | the retained ids, the outstanding ids, the live sources and the closed sources are disjoint in every state of a run if and only if the guards let no such request and no such terminal through |
| Identities.FreshIsDisjoint | src/dispatch.cpp:247-305 | they are disjoint in every state if the Host uses no acknowledged id and no id of a source for Work and does not repeat an outstanding id while the client is not ready |
| Witnesses.OutstandingAndRetained | src/dispatch.cpp:271-276 | a run from disjoint tables to an id that is outstanding and retained |
| Witnesses.OutstandingAndClosed | src/dispatch.cpp:247-305 | a run from disjoint tables to an id that names a closed source and outstanding Work |
| Wires.WorkGated | src/control.cpp:127-136 | Work is opened only behind a successful apply result written on this pair's Control stream, the spec it reports was committed, and accepted inbound sequences strictly increase |
| Wires.WorkFramesInOrder | src/work.cpp:69-134 | on every pair the first Work frame is the attach with sequence 1, later ones carry the pair's epoch and contiguous sequences in the order the queue admitted them |
| Wires.PreflightSound | src/work.cpp:110-134 | a frame taken from the queue still fits the negotiated limit with its real header, so the oversize failure is unreachable |
| Supervision.PairsBounded | src/session.cpp:197-304 | pair k is opened under epoch k, and with R pairs found ready at most 1 + max * (R + 1) are opened |
| Supervision.OnceOnly | src/session_state.cpp:9-43 | the client registers at most once and reports the loss of its session at most once |
| Supervision.PausesFollow | src/session.cpp:272-304 | every pause before a retry is the backoff of the number of unready retries before it, and min(max, initial * 2^retries) whenever the condition of `BackoffFormula` or max <= 2^31 holds |
| Supervision.BackoffFormula | src/session_state.cpp:83-89 | the delays follow min(max, initial * 2^j) for every j exactly when the first delay too large to double in 32 bits has reached the maximum |
| Supervision.BackoffWraps | src/session_state.cpp:83-89 | with an initial delay of 2^31 and a maximum of 2^32 - 1 the second delay is zero |
| Supervision.TerminalAbsorbs | src/session.cpp:260-271 | after a terminal failure, a reported loss or a reset no further pair is ever opened |
| ClientObject.Client.QueueWork | src/queue.cpp:100-121 | the frame joins the queue exactly when link, bounds and frame limit allow, and nothing else changes |
| ClientObject.Client.TakeFrame | src/work.cpp:121-123 | the writer gets the first frame of the queue, and the object ends in the state of `Core.PopWork` |
| ClientObject.Client.CommitTerminalFrame | src/queue.cpp:155-227 | the object ends in the state of `Core.CommitTerminal`, with its result |
| ClientObject.Client.ReserveTerminalReplay | src/queue.cpp:229-248 | the reservation is granted as `Core.ReserveTerminalReplay` says and added to the counter |
| ClientObject.Client.ReleaseWorkToken | src/queue.cpp:250-261 | the object ends in the state of `Core.EraseWorkToken` |
| ClientObject.Client.ReleaseEveryToken | src/session.cpp:474-479 | releasing the tokens one by one, in any order, leaves the counter where one subtraction of their sum would |
| ClientObject.Client.EnqueueDispatch | src/dispatch.cpp:247-332 | the object ends in the state of `Core.EnqueueDispatch`, with its verdict |
| ClientObject.Client.EnqueueSourceOpen | src/dispatch.cpp:76-246 | the object ends in the state of `Core.EnqueueSourceOpen`, with its verdict |
| ClientObject.Client.CountSourceStreams | src/queue.cpp:296-310 | the loop counts exactly the live sources of the job's endpoint |
| ClientObject.Client.SumBytes | src/stream.cpp:37-40 | the loop returns the saturated sum of the item sizes |
| ClientObject.Client.PublishSource | src/stream.cpp:19-75 | the object ends in the state of `Core.PublishSource`, with its result |
| ClientObject.Client.CloseSource | src/stream.cpp:77-103 | the object ends in the state of `Core.CloseSource`, with its result |
| ClientObject.Client.GrantSourceCredit | src/stream.cpp:105-146 | the object ends in the state of `Core.GrantSourceCredit`, with its result |
| ClientObject.Client.HandleTerminalAcknowledgement | src/stream.cpp:148-216 | the object ends in the state of `Core.AcknowledgeTerminal`, with its result |
| ClientObject.Client.HandleCancellation | src/stream.cpp:218-290 | the object ends in the state of `Core.HandleCancellation`, with its result |
| ClientObject.Client.SettleSourceOpen | src/source_dispatch.cpp:93-143 | the object ends in the state of `Core.SettleSourceOpen`, with its result |
| ClientObject.Client.CancelAllWork | src/spec.cpp:514-522 | the two loops request the cancellation of exactly the outstanding tokens and live sources |
| ClientObject.Client.SignalSessionFailure | src/session.cpp:588-602 | the object ends in the state of `Core.SignalFailure`: only the first failure of a session counts, and all Work is cancelled |
| ClientObject.Client.DeactivateTables | src/spec.cpp:429-453 | the object ends in the state of `Core.Deactivate` |
| ClientObject.Client.PreparePairReplacement | src/session.cpp:459-471 | the object ends in the state of `Core.RetirePairTables` |
| ClientObject.Client.ClearConnectionState | src/session.cpp:489-513 | the object ends in the state of `Core.ClearConnection` |
| ClientObject.Client.PrepareConnectionPair | src/session.cpp:431-457 | the object ends in the state of `Core.PreparePair` |

## Left out

- gRPC channels and contexts, real threads and condition variables: each wait is a step that is enabled when its condition holds.
- Protobuf encoding beyond sizes: a message carries its deterministic encoding, and equality of messages is equality of values.
- The bytes of the Control queue and its frames other than spec results: whether a result finds room there is left to the environment.
- Drain reporting: entering the drain and the failure of its report are steps; when the report is sent is not promised by the code and not stated.
- Snapshots, capability statuses, logging and the counters of rejected and dropped frames: observational.
- Bootstrap file reading, permissions and the erasure of the token: operating-system plumbing.
- The text checks of an instance spec (scopes, digests, contract keys): `ValidSpec` keeps what later sections rely on, and a spec that fails the others is like one that fails these.
- Deadline normalisation and heartbeat alignment: whether a deadline has passed is decided by the environment.
- JSON payloads and schema contents: whether a payload is well formed is a flag of the payload.
- The schema check of the input of Work: its outcome is left to the environment.
- PreflightSound: stated for outbound sequence numbers of at most 64 bits; the source's counter would wrap around after 2^64 frames of one pair, while sequence numbers are unbounded in the model.
- Shared cancellation states are named by tickets: two threads that share one state hold the same number.
- Collision resistance of SHA-256.
