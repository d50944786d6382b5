# yrby: a verified model of the sync, storage, rendering and editing core

yrby is a Yjs sync server for Ruby and a client for the browser. This project models the
repository's own logic around the CRDT engine and proves what that logic is for: no edit is lost
between a client's queue and the compacting store, an acknowledged edit is durable, a client that
reports being synced is caught up, the renderers emit what a plain recursive rendering would, and
the bookkeeping around local edits loses and duplicates nothing.

`dafny verify dfyconfig.toml` checks everything. The modules, in dependency order:

| file | what it models |
|---|---|
| `Common.dfy` | an option type and a minimum shared by the others |
| `Crdt.dfy` | updates as finite sets of operations with dependencies; a document shows the least causally closed set and parks the rest; state vectors and diffs |
| `Protocol.dfy` | the decisions of `protocol.rs`: gap-free state, readiness, "does this advance the document" |
| `Store.dfy` | `Y::Document`: the snapshot column and the update rows, append, load, compaction and quarantine, as a class |
| `Compaction.dfy` | the same compaction as separate steps, with appends, loads and crashes in between |
| `ReliableSync.dfy` | the client's delivery queue, its timer and its injected callbacks, as a re-entrant machine and as a class |
| `Network.dfy` | clients, a lossy network, the channel's handlers and the store as one system |
| `Refinement.dfy` | the delivery machine in the place of one of the network's clients |
| `Gaps.dfy` | how the store gets a gap, why the queues alone never cause one, and how a join heals one |
| `Arrival.dfy` | what happens when messages get through: edits reach connected peers, handshakes complete |
| `ProtocolSession.dfy` | handshake cycles of `YProtocolSession` under re-entrant callbacks |
| `Session.dfy` | `DocumentSession`: phases, leases, settle and grant refreshes under re-entrant cleanup |
| `HtmlCore.dfy` | segments, the emitter's frames, splice and flatten |
| `Layout.dfy` | what a Lexical document means as HTML, by recursion with depth caps |
| `Render.dfy` | the Lexical renderer as it runs: work stack, emitter, deferred callback nodes |
| `Reading.dfy` | a reader of the renderer's output |
| `Meaning.dfy` | what a Lexical document says, told from its items; the output reads back as exactly that |
| `TextOrder.dfy` | when every child has a pass, the output's text is the document's, in document order |
| `Once.dfy` | nothing a Lexical document stores is rendered twice |
| `Marks.dfy` | ProseMirror text runs: the wrappers of a run, and shared marks kept open |
| `Edit.dfy` | the unsent buffer behind `Doc#edit` and the fan-in merge |
| `Blocks.dfy` | which block ordinals an update touched |
| `Indexes.dfy` | character indexes over UTF-16 document indexes |

How the model stands to the code:

- An update is a set of operations, each naming the blocks it needs. Encoding is taken to be faithful
  on that set: `encode_state_as_update` is everything known, `compacted_state_update` everything
  shown. A block behind a Skip is one whose dependencies leave out its client's previous clock.
- The steps of a compaction are visible one by one and a crash keeps whatever was already written.
  A database transaction allows fewer runs than that, so what holds here holds for it.
- A message stays on the network once sent: it may arrive never, late, repeatedly or out of order.
  Besides the tails of the queues a client may send any part of its document without an id, so
  causally incomplete updates do arrive. A server handler may stop between any two of its effects. Handshake messages are received only on
  the connection that opened the handshake: the socket carries no frame of an earlier connection, and
  the provider ignores callbacks of an attempt that is no longer active.
- A `clearInterval` that throws is taken to have stopped its interval.
- Code that calls out to injected functions, listeners or editor cleanup is cut at each such call,
  so that any other call may come in between.
- In the renderer, node types, attributes and tags are data; which tag a heading gets is a
  parameter, while every branch that decides what is opened, closed, deferred, skipped or cut is
  the code's. Text stands for its escaped form.

Four promises of the source do not hold for all inputs. Each comes here with a failing input and the
exact condition. The first two, in `protocol.rs`, have to do with holes: an update can hide one behind
a Skip, and a document that integrated such an update keeps it.

- Readiness must be exact (ext/yrby/src/protocol.rs:72-81). Its clock test compares the update's lowest
  clock with the document's state vector, which stops at the first hole, so the ordinary next block of
  a client whose clocks have a hole is refused although it would integrate cleanly.
  `Protocol.ReadyExactly` says for every document and update when the answer is "ready": the result is
  causally closed and each client of the update has a block with no hole below it.
  `Protocol.FastRejectDisagreesExactly` is the family on which the clock test and the trial
  integration part.
- An update hiding a hole is always reported as advancing (ext/yrby/src/protocol.rs:138-150). The guard
  looks only where the update's own capped state vector is above zero, and that vector is zero for a
  client whose blocks in the update do not start at clock zero, as lines 114-117 say of diffs. So new
  content is answered with "does not advance" for a diff with a Skip inside
  (`Protocol.SkipInsideADiffIsMissed`) and for a Skip-free update on a document that has a hole
  already. `Protocol.AdvancesExactly` gives the answer for every update.

- The updates edits return have no gaps between them (lib/y/doc.rb:15-17). With two takes at once they
  can: one edit returns a later write while another holds an earlier one and then puts it back.
  `Edit.ConcurrentTakesLeaveAGap` is such a run, `Edit.TakesExactly` says for every run what a take
  takes, and `Edit.NoGapsWithoutOverlap` that there is no gap while takes do not overlap.
- Synced means the document is caught up (packages/client/src/y_protocol_session.ts:109). A SyncStep2
  whose update fails to apply is reported and marks the session synced all the same:
  `SyncCycles.FailedStep2StillSyncs`. `Network` takes every received update to apply.

`Protocol.HoledDocumentMisjudgesTheNextBlock` is one input on which the first two both fail. The store
loses nothing by it: `Store.PlanIsSafe` holds for every row. What it can do is keep a row it no longer
needs, and `Store.SurvivorsExactly` says which.

## Model

| member | source | states |
|---|---|---|
| Crdt.IntegrationIsLeast | ext/yrby/src/lib.rs:501-510 | Integration stays inside every set that keeps what it can integrate: it is the least causally closed set, from any starting point |
| Crdt.Convergence | ext/yrby/src/lib.rs:501-510 | Two histories with the same operations, in any order and with any duplication, leave the same document, shown and parked alike |
| Crdt.PendingIffGap | ext/yrby/src/protocol.rs:225-228 | A document has something pending exactly when what it knows is not causally closed |
| Crdt.DiffLeavesOutBacked | ext/yrby/src/lib.rs:481-499 | A diff against a state vector, with what a peer that has integrated everything below that vector holds, covers everything the sender knows |
| Protocol.DiffIsNoMore | ext/yrby/src/lib.rs:481-499 | A diff is part of what the sender knows, with no block below the state vector and with every deletion |
| Protocol.DiffToAPeerInStep | ext/yrby/src/lib.rs:481-499 | To a peer with the same integrated blocks a document without holes sends deletions only |
| Protocol.IntegratedUpdateIsGapFree | ext/yrby/src/protocol.rs:242-264 | Both paths serve exactly the integrated operations past the state vector, never a parked one |
| Protocol.ReadyIsSound | ext/yrby/src/protocol.rs:82-105 | For every document and update, "ready" means the integrated state with the update is causally closed |
| Protocol.ReadyExactly | ext/yrby/src/protocol.rs:82-105 | For every document, whatever it has parked, and every update: ready if and only if the integrated state with the update is closed and each client of the update has a block there with no hole below it |
| Protocol.FastRejectDisagreesExactly | ext/yrby/src/protocol.rs:82-105 | The clock test rejects what the trial integration accepts if and only if everything would integrate and some client's blocks in the update all lie behind a hole |
| Protocol.OrdinaryIsHoleless | ext/yrby/src/protocol.rs:138-150 | A closed state in which every block waits for its client's previous clock has no hole, so the corollaries apply to all that providers without Skips write |
| Protocol.FastRejectAgrees | ext/yrby/src/protocol.rs:82-105 | Corollary: with no hole in the document and no Skip before a client's lowest block, the clock test never disagrees |
| Protocol.ReadyIsExact | ext/yrby/src/protocol.rs:82-105 | Corollary: there, ready if and only if integrated state plus update is closed |
| Protocol.AdvancesExactly | ext/yrby/src/protocol.rs:134-220 | On a document with nothing pending, for every update: new content is said to advance if and only if it is not hidden, and a repeat if and only if it has a block past its cap |
| Protocol.HiddenHoleIsReported | ext/yrby/src/protocol.rs:138-157 | An update whose blocks start at clock zero and leave one out is reported as advancing, to every document |
| Protocol.AdvancesMissesExactlyHidden | ext/yrby/src/protocol.rs:134-220 | New content is answered "does not advance" if and only if there is no deletion, no block past a non-zero cap, everything integrates, and every new block lands behind a hole |
| Protocol.AdvancesIsExact | ext/yrby/src/protocol.rs:134-220 | Corollary: with no hole and no Skip, advancing is exactly carrying an operation the document lacks, over all three paths |
| Protocol.SkipInsideADiffIsMissed | ext/yrby/src/protocol.rs:138-157 | A concrete ready update with new content that is answered "does not advance" |
| Protocol.HoledDocumentMisjudgesTheNextBlock | ext/yrby/src/protocol.rs:82-157 | A concrete document with a hole and a Skip-free update it lacks and would integrate, answered neither ready nor advancing |
| Store.PlanIsSafe | app/models/y/document.rb:164-197 | For any rows: the new snapshot is exactly what integrates, is closed, contains the old one, and every row to be deleted lies inside it |
| Store.CompactedConserves | app/models/y/document.rb:147-155 | Compaction conserves the content of the tables, keeps the snapshot closed and growing, and leaves no clean row |
| Store.StaysExactly | app/models/y/document.rb:176-178 | For every batch, a row stays if and only if it holds something the folded state lacks, has a block past its cap, or has a client whose blocks all lie behind a hole of that state |
| Store.ReadyRowAddsNothing | app/models/y/document.rb:138-146 | A row found ready lies inside the folded state, and is said to advance it exactly if it has a block past its cap |
| Store.SurvivorsExactly | app/models/y/document.rb:147-181 | For all tables: no row survives a gap-free compaction, and exactly those rows survive a gapped one, unchanged but marked pending |
| Store.QuarantineIsExact | app/models/y/document.rb:164-181 | Corollary: with no hole in the folded state and no Skip in the rows, the survivors are exactly the rows holding an operation the store cannot show |
| Store.CapturedRowCanStay | app/models/y/document.rb:164-181 | A concrete store whose snapshot has a hole, where a Skip-free row inside the snapshot is quarantined |
| Store.HealedStoreCompactsClean | app/models/y/document.rb:186-197 | A gap-free store compacts to one snapshot with all its content and no rows |
| Store.AppendKeepsTailShort | app/models/y/document.rb:108-111 | After an append fewer than `compact_every` clean rows remain and the content grew by exactly the payload |
| Store.AppendCompactsFromThreshold | app/models/y/document.rb:108-111 | Below the threshold an append adds one clean row and touches nothing else; from it on no clean row is left |
| Store.Document.Append | app/models/y/document.rb:108-111 | The tables become the specified ones; content is the old content plus the payload |
| Store.Document.LoadState | app/models/y/document.rb:123-132 | The load returns all the content, parked operations included; nil exactly for an untouched document |
| Store.Document.FoldRows | app/models/y/document.rb:128-131 | Applying snapshot and rows in any order gives the one document that knows them all |
| Store.Document.Compact | app/models/y/document.rb:147-155 | The tables become the specified compacted tables on both paths |
| Store.Document.CompactRows | app/models/y/document.rb:186-197 | Compacts and reports true exactly when the content is gap-free; otherwise nothing changes |
| Store.Document.RowsThatStay | app/models/y/document.rb:174-178 | The rows that stay are those the folded state could not integrate or would still gain from |
| Store.Document.CompactAroundGap | app/models/y/document.rb:164-181 | A gapped batch leaves exactly the specified tables |
| Compaction.StepKeeps | app/models/y/document.rb:147-197 | Every step of a compaction, append or crash conserves content, never shrinks the snapshot, and lets a row go only once the snapshot holds it |
| Compaction.RunKeeps | app/models/y/document.rb:147-197 | The same over every run of interleaved appends, compactions and crashes |
| Compaction.StepsCompact | app/models/y/document.rb:147-155 | Undisturbed, the separate steps are exactly one compaction and let the lock go |
| Compaction.CrashIsRepaired | app/models/y/document.rb:147-155 | Whatever step a compaction stopped at, the next one finishes the work |
| Compaction.RacingLoadIsSandwiched | app/models/y/document.rb:123-132 | A load returns at least what was committed at its tail read and at most what was committed at its snapshot read, whatever ran in between |
| Compaction.SnapshotFirstLosesTheTail | app/models/y/document.rb:113-122 | Reading the snapshot first would lose content on every healthy store with an unfolded tail |
| Queue.UnackedIsSuffix | packages/client/src/reliable_sync.ts:108-114 | On a gap-free queue an acknowledgement drops exactly a prefix |
| ReliableDelivery.EveryTransmissionIsExact | packages/client/src/reliable_sync.ts:183-194 | In every run with re-entering, returning and throwing callbacks, each transmission is the merge of exactly the queue of that instant under its highest number, and the queue is a gap-free run ending at the last number issued |
| ReliableDelivery.OneIntervalBetweenCalls | packages/client/src/reliable_sync.ts:153-179 | Between calls at most one interval runs, exactly while live with work queued, unless the last attempt to start it threw |
| ReliableDelivery.OnlyAcksRemove | packages/client/src/reliable_sync.ts:108-144 | An entry leaves the queue only through destroy or an acknowledgement that reaches it |
| ReliableDelivery.RetransmissionGoesOut | packages/client/src/reliable_sync.ts:133-136 | On every reachable live queue with work and no injected call running, retransmit and a tick of the interval each send the whole queue once under its last number |
| ReliableDelivery.EnqueueGoesOut | packages/client/src/reliable_sync.ts:96-101 | An edit on a live queue sends the queue with the edit in it once the injected calls return |
| ReliableDelivery.ResumeGoesOut | packages/client/src/reliable_sync.ts:117-123 | Resuming with work queued sends the whole queue once the injected calls return |
| ReliableDelivery.PauseSilences | packages/client/src/reliable_sync.ts:126-131 | From a pause on nothing is sent until resume, not even a merge then in progress |
| ReliableDelivery.DestroySilences | packages/client/src/reliable_sync.ts:139-144 | After destroy the queue is empty for good and nothing is sent |
| ReliableDelivery.StepKeeps | packages/client/src/reliable_sync.ts:96-194 | Queue, memoised tail, merges in progress and timers stay consistent over every public call, tick, return and throw |
| ReliableSync.ReliableSync.Enqueue | packages/client/src/reliable_sync.ts:96-101 | The object takes the machine's step and keeps the invariant |
| ReliableSync.ReliableSync.Acknowledge | packages/client/src/reliable_sync.ts:108-114 | The same for acknowledgements, malformed and over-reaching ones ignored |
| ReliableSync.ReliableSync.Resume | packages/client/src/reliable_sync.ts:117-123 | The same for resume |
| ReliableSync.ReliableSync.Pause | packages/client/src/reliable_sync.ts:126-131 | The same for pause |
| ReliableSync.ReliableSync.Destroy | packages/client/src/reliable_sync.ts:139-144 | The same for destroy |
| ReliableSync.ReliableSync.QueueChanged | packages/client/src/reliable_sync.ts:146-150 | The memoised tail is dropped under a new version before the timer is looked at |
| ReliableSync.ReliableSync.UpdateTimer | packages/client/src/reliable_sync.ts:153-179 | The timer is started, stopped or left as the machine says, up to the injected call |
| ReliableSync.ReliableSync.Flush | packages/client/src/reliable_sync.ts:183-194 | A flush sends the memoised tail, a single update, or starts the merge |
| ReliableSync.ReliableSync.CallbackReturns | packages/client/src/reliable_sync.ts:166-193 | What follows an injected call: stale merges are dropped, superseded intervals cancelled |
| ReliableSync.ReliableSync.CallbackThrows | packages/client/src/reliable_sync.ts:169-173 | A throw leaves the queue alone and forgets only the timer being started |
| Network.NoEditIsLost | packages/client/src/reliable_sync.ts:96-114 | In every run, every update a client ever queued is still queued under its number or durable |
| Network.AcksAreDurable | lib/y/action_cable/sync.rb:263-270 | In every run, an acknowledgement on the wire names only durable updates of that client |
| Refinement.QueueRefinesClient | packages/client/src/reliable_sync.ts:96-194 | Every run of the real queue among everything else, re-entering and throwing callbacks included, is a run of the network with matching queue, and each of its transmissions is a frame on the wire |
| Refinement.RealQueueLosesNothing | packages/client/src/reliable_sync.ts:96-114 | Hence in every such run the k-th update enqueued on the real queue is pending under its number or durable |
| Refinement.StepIsQuiet | packages/client/src/reliable_sync.ts:96-194 | Beyond its call's own effect, a step sends the queue as it then is at most once, and only while live |
| Network.StepOk | lib/y/action_cable/sync.rb:386-423 | Every client, server and store step keeps the system invariant and forgets nothing |
| Network.TailCovers | packages/client/src/reliable_sync.ts:183-194 | The transmitted tail with what is durable covers the whole log through the number it carries |
| Network.SyncedMeansCaughtUp | packages/client/src/y_protocol_session.ts:182-215 | In every run, a synced client holds all the server had when it answered, which is at least all that was durable when the handshake began |
| Network.AckedEditReachesNextHandshake | lib/y/action_cable/sync.rb:386-433 | An edit confirmed before another client reconnects is in that client's document once it reports synced |
| Network.JoinHealsGaps | lib/y/action_cable/sync.rb:152-177 | When store and joining client together lack no dependency, the store is gap-free once the client's reply to the greeting is recorded, whatever happened in between |
| Gaps.NoGapWithoutStrays | packages/client/src/reliable_sync.ts:3-7 | In every run of tails and replies to greetings, whatever is lost, repeated or reordered, the store never has a gap |
| Gaps.GapsOpen | lib/y/action_cable/sync.rb:410-423 | A frame without an id that carries a client's second block alone leaves the store with a gap |
| Gaps.ReplyGoesBeyondIntegrated | lib/y/action_cable/sync.rb:166-172 | The reply to a greeting carries each block the client holds from the first clock the server has not integrated, parked there or not, and every deletion |
| Gaps.OneGreetingHeals | lib/y/action_cable/sync.rb:166-172 | From every reachable state in which store and client together lack no dependency, one greeting the client answers leaves the store gap-free |
| Gaps.GapOpensAndHeals | lib/y/action_cable/sync.rb:152-177 | A reachable gapped store, and the same client's next join closing the gap |
| Network.OneRoundTripDrains | packages/client/src/reliable_sync.ts:108-194 | From every reachable state, one tail that gets through and one ack that comes back empty a live client's queue and make its whole log durable, provided the queue carries any operation (an empty update is never acked) |
| Network.EmptyQueuesMeanStored | lib/y/action_cable/sync.rb:419-423 | In every run, once all queues are empty the store holds exactly what was ever written |
| Network.SyncedClientsConverge | lib/y/action_cable/sync.rb:386-433 | Once all queues are empty and nobody writes, every client that reconnects and reports synced holds exactly everything ever written, nothing parked, so all such clients agree |
| Network.RecordOk | lib/y/action_cable/sync.rb:419-423 | Recording adds exactly the payload to the store, and every job past it has its payload durable |
| Arrival.RecordedEditIsRelayed | lib/y/action_cable/sync.rb:419-423 | From every reachable state, what a handler recorded reaches any client that stays connected, as an update |
| Arrival.EditReachesReader | lib/y/action_cable/sync.rb:419-433 | From every reachable state, an edit on a live writer reaches a connected reader's document without anyone reconnecting |
| Arrival.HandshakeCompletes | lib/y/action_cable/sync.rb:391-396 | From every reachable state, a handshake whose messages get through leaves the client synced with everything durable when it began |
| Arrival.ResumeReplays | packages/client/src/y_protocol_session.ts:120-130 | Reconnecting asks the server and replays the whole unconfirmed tail |
| Network.TakeRelayOk | lib/y/action_cable/sync.rb:429-433 | A relayed frame is never a SyncStep2 and leaves synced as it was |
| Network.AnswerOk | ext/yrby/src/lib.rs:544-591 | The server's answer, with what the asking client had integrated, covers all the load saw, and carries no block the client's vector covers |
| SyncCycles.CyclesAreRespected | packages/client/src/y_protocol_session.ts:120-215 | In every run: synced only by a frame whose receive began in the current cycle, delivery on only in a cycle resume began, and on once all calls returned without a throw |
| SyncCycles.CallsComplete | packages/client/src/y_protocol_session.ts:120-215 | Undisturbed: a SyncStep2 makes the session synced, other frames leave that alone, resume opens a cycle and turns delivery on, pause opens one with it off |
| SyncCycles.DestroyedIsFinal | packages/client/src/y_protocol_session.ts:218-224 | Once destroyed, a session stays so whatever calls are still returning |
| SyncCycles.SyncedHasAStep2 | packages/client/src/y_protocol_session.ts:182-215 | Every run that ends synced has a moment, in the cycle it ends in, when a SyncStep2 receive begun in that cycle finished |
| SyncCycles.YProtocolSession.BeginResume | packages/client/src/y_protocol_session.ts:120-124 | Resume opens a new unsynced cycle and sends the handshake, unless destroyed |
| SyncCycles.YProtocolSession.HandshakeSent | packages/client/src/y_protocol_session.ts:125-129 | A resume that a callback superseded goes no further; presence is announced exactly if there is any and the cycle is still the resume's own |
| SyncCycles.YProtocolSession.PresenceSent | packages/client/src/y_protocol_session.ts:129-130 | Delivery resumes only if the cycle is still the resume's own |
| SyncCycles.YProtocolSession.PauseNow | packages/client/src/y_protocol_session.ts:133-141 | Pause starts a new cycle and switches delivery off |
| SyncCycles.YProtocolSession.BeginReceive | packages/client/src/y_protocol_session.ts:182-184 | A receive remembers the cycle it began under; a destroyed session takes none |
| SyncCycles.YProtocolSession.Applied | packages/client/src/y_protocol_session.ts:198-210 | Only a SyncStep2 gone through in its own cycle marks the session synced, and a reply goes out only in that cycle |
| SyncCycles.YProtocolSession.ApplyFailed | packages/client/src/y_protocol_session.ts:196-198 | An update that fails to apply is reported only in its own cycle, and the receive goes on |
| SyncCycles.YProtocolSession.CallbackThrew | packages/client/src/y_protocol_session.ts:211-214 | Any other throw drops the frame or stops the resume; it is reported only for a receive still in its cycle |
| SyncCycles.FailedStep2StillSyncs | packages/client/src/y_protocol_session.ts:196-201 | A SyncStep2 whose update fails turns the session synced exactly as one that applies |
| SyncCycles.YProtocolSession.DestroyNow | packages/client/src/y_protocol_session.ts:218-224 | Destroyed is final and takes delivery with it |
| SessionLifecycle.StepKeeps | packages/client/src/document_session.ts:175-271 | Every call, callback, reply and settle keeps the session's invariant, with cleanup calling back in at any point |
| SessionLifecycle.WhyASessionClosed | packages/client/src/document_session.ts:193-252 | Every run that ends closed has a discard, or a settle that found the session with no lease and nothing unacked |
| SessionLifecycle.AtRest | packages/client/src/document_session.ts:195-220 | With no call running and no settle queued: open means needed, blocked means only leases taken while blocked, closed means no lease, and observers heard everything |
| SessionLifecycle.WhyALeaseEnds | packages/client/src/document_session.ts:235-252 | A lease ends by its holder, by close, or by a block that came after it was taken |
| SessionLifecycle.StaleRepliesAreIgnored | packages/client/src/document_session.ts:260-271 | A refresh reply acts only if no transition happened since the request, and then renews or blocks |
| SessionLifecycle.RefreshesAreBounded | packages/client/src/document_session.ts:255-259 | Refreshes never exceed one plus acceptances plus retries |
| SessionLifecycle.RetryReopens | packages/client/src/document_session.ts:189-191 | Retry opens a blocked session with all its leases; a failing connect blocks it again under a later version; elsewhere nothing changes |
| SessionLifecycle.AcceptanceReopens | packages/client/src/document_session.ts:163-168 | Acceptance makes a renewed session open and leaves every other phase; a blocked or closed session does not listen |
| SessionLifecycle.RejectionRefreshesOrBlocks | packages/client/src/document_session.ts:255-259 | A rejection starts one fetch if open with a URL, and blocks with all leases retiring in every other live phase |
| SessionLifecycle.AttachHolds | packages/client/src/document_session.ts:175-182 | A lease is held in every phase but closed and connects only in the open and renewed phases |
| SessionLifecycle.ReleaseLetsGo | packages/client/src/document_session.ts:118-122 | A release aborts the signal at once; after the cleanup exactly that lease is gone and a settle queued |
| SessionLifecycle.ChangesAreHeard | packages/client/src/document_session.ts:157-171 | Pending changes and errors are noted and queue a settle |
| SessionLifecycle.DiscardCloses | packages/client/src/document_session.ts:193-252 | Discard closes from every phase and every lease is then on its way out |
| SessionLifecycle.SettleClosesUnneeded | packages/client/src/document_session.ts:210-220 | A settle of an open session closes it exactly if no lease and nothing unacked needs it |
| DocumentSession.DocumentSession.Move | packages/client/src/document_session.ts:235-244 | The phase moves exactly where the table allows, and retiring is the leases held at a block |
| DocumentSession.DocumentSession.MarkChanged | packages/client/src/document_session.ts:195-200 | Dirty, and exactly one settle queued |
| DocumentSession.DocumentSession.ConnectOrBlock | packages/client/src/document_session.ts:223-230 | A failing connect blocks the session |
| DocumentSession.DocumentSession.AttachLease | packages/client/src/document_session.ts:175-182 | The lease is held and connects only in a connecting phase; refused exactly when closed |
| DocumentSession.DocumentSession.ReleaseLease | packages/client/src/document_session.ts:118-122 | A release aborts the signal once and starts the cleanup; a second one changes nothing |
| DocumentSession.DocumentSession.LetGo | packages/client/src/document_session.ts:183-187 | After the cleanup the lease is dropped, once, and a settle is queued |
| DocumentSession.DocumentSession.Discard | packages/client/src/document_session.ts:193-252 | The session closes at once and begins to release every lease it holds |
| DocumentSession.DocumentSession.RunSettle | packages/client/src/document_session.ts:201-220 | A settle begins to retire the leases of the block, closes an unneeded session, or does nothing more |
| DocumentSession.DocumentSession.Continues | packages/client/src/document_session.ts:205-252 | Each step after a cleanup is the machine's; observers are told exactly when a settle ends with a change |
| DocumentSession.DocumentSession.OnPending | packages/client/src/document_session.ts:163-171 | A pending change queues a settle while the session is open |
| DocumentSession.DocumentSession.RetryNow | packages/client/src/document_session.ts:189-191 | Retry reopens a blocked session only |
| DocumentSession.DocumentSession.OnStatus | packages/client/src/document_session.ts:163-168 | Acceptance makes a renewed session open again |
| DocumentSession.DocumentSession.OnRejected | packages/client/src/document_session.ts:255-259 | Fetches a grant exactly when open with a refresh URL, else blocks |
| DocumentSession.DocumentSession.OnReply | packages/client/src/document_session.ts:260-271 | The reply takes the machine's step |
| HtmlCore.SpliceIsResolve | lib/y/rendering.rb:197-207 | Splicing depends on the output only, not on how it is grouped into segments |
| HtmlCore.EmptyIffNothing | ext/yrby/crates/html-core/src/lib.rs:44-72 | With the merge invariant, no segments means no output |
| HtmlCore.Flatten | ext/yrby/crates/html-core/src/lib.rs:152-172 | Plain markup exactly when no segment is deferred, and then the same output |
| HtmlCore.Emitter.PushStr | ext/yrby/crates/html-core/src/lib.rs:61-71 | Markup lands at the end of the innermost frame and the merge invariant is kept |
| HtmlCore.Emitter.BeginFrame | ext/yrby/crates/html-core/src/lib.rs:79-81 | A new empty innermost frame |
| HtmlCore.Emitter.EndFrame | ext/yrby/crates/html-core/src/lib.rs:84-86 | The innermost frame's output is handed over, the others untouched |
| HtmlCore.Emitter.EmitDeferred | ext/yrby/crates/html-core/src/lib.rs:103-117 | A callback node lands at the end of the innermost frame |
| HtmlCore.Emitter.Append | ext/yrby/crates/html-core/src/lib.rs:90-101 | Captured segments land in order, joining markup where they meet it |
| Layout.DeferringIsInPlace | lib/y/rendering.rb:197-207 | For every layout and every callback, deferring and resolving afterwards equals calling callbacks in place, probes for emptiness included |
| Layout.OutputIsBalanced | ext/yrby/crates/lexical-html/src/lib.rs:523-548 | Every element opened is closed in order, at every level of deferral, cut subtrees included |
| Layout.MeetsCallbackIffCall | ext/yrby/crates/html-core/src/lib.rs:152-172 | Output holds a callback node exactly when rendering reaches one |
| Layout.RuleFreeAlwaysFlattens | ext/yrby/crates/lexical-html/src/lib.rs:144-150 | With no callback rule no document ever defers, so the rule-free render cannot fail |
| Reading.ReadsBack | ext/yrby/crates/lexical-html/src/lib.rs:285-302 | Reading a layout's output gives what the layout shows and ends where it began |
| Meaning.OutputSaysTheDocument | ext/yrby/crates/lexical-html/src/lib.rs:636-715 | For every document and rule set, the output reads back as exactly what the document says: every character, break, rule and callback node, in order, under its block's elements, its links and the marks of the format in force |
| Meaning.LastMapDecides | ext/yrby/crates/lexical-html/src/lib.rs:644-680 | The format in force at an item is that of the last metadata map before it, line breaks aside |
| TextOrder.OutputSpellsTheDocument | ext/yrby/crates/lexical-html/src/lib.rs:308-548 | When every child has a pass within the caps and inline content precedes block children, the output's text is every stored string once, in document order, a tab shown as a tab |
| Once.NothingIsRenderedTwice | ext/yrby/crates/lexical-html/src/lib.rs:620-635 | For every document and rule set over the renderer's table, a character no template writes comes out at most as often as it is stored, deferred content included |
| Once.SharesAreDisjoint | ext/yrby/crates/lexical-html/src/lib.rs:374-378 | The inline pass and the block walk share a node's children out, none to both |
| Render.RenderBlockTree | ext/yrby/crates/lexical-html/src/lib.rs:285-302 | The work-stack walk terminates, emits exactly the recursive rendering, and ends with the frames it began with |
| Render.Pop | ext/yrby/crates/lexical-html/src/lib.rs:287-301 | Each pop keeps "what the stack still has to do"; open frames are the caller's plus one for each callback node on the stack |
| Render.FinishOpened | ext/yrby/crates/lexical-html/src/lib.rs:541-547 | Working off children pushed last to first appends their rendering first to last |
| Render.OpenBlockNode | ext/yrby/crates/lexical-html/src/lib.rs:308-429 | Opening a block leaves exactly the rest of its rendering on the stack |
| Render.OpenCallbackBlock | ext/yrby/crates/lexical-html/src/lib.rs:445-474 | A callback block's children end up as the content of its deferred node |
| Render.OpenDeclarativeBlock | ext/yrby/crates/lexical-html/src/lib.rs:484-521 | A declarative block closes after its children, void ones have no body |
| Render.OpenContainer | ext/yrby/crates/lexical-html/src/lib.rs:355-412 | A container's inline content comes first, its kept block children next, its end tag last |
| Render.OpenProbed | ext/yrby/crates/lexical-html/src/lib.rs:322-334 | A block with no inline output renders its fallback, any other its tags around that output |
| Render.PushBlockChildren | ext/yrby/crates/lexical-html/src/lib.rs:529-548 | The end tag goes below the kept children; past the cap there are none |
| Render.RenderInline | ext/yrby/crates/lexical-html/src/lib.rs:636-715 | The loop with its carried format emits exactly the recursive inline rendering |
| Render.RenderRuleInline | ext/yrby/crates/lexical-html/src/lib.rs:837-895 | A rule node among text renders or defers exactly as specified, capped by depth |
| Render.RenderLink | ext/yrby/crates/lexical-html/src/lib.rs:810-831 | A link's body, or its flat text past the cap |
| Render.RenderDecorator | ext/yrby/crates/lexical-html/src/lib.rs:900-911 | Rules first, then the horizontal rule, else nothing |
| Render.RenderRuleElement | ext/yrby/crates/lexical-html/src/lib.rs:917-965 | Content slots are ignored and a callback defers with empty content |
| Render.RenderSegments | ext/yrby/crates/lexical-html/src/lib.rs:120-139 | None exactly for a foreign root; else balanced output that reads back as the document, and whose splice is the in-place rendering for every callback |
| Render.RenderFlat | ext/yrby/src/lib.rs:781-792 | Plain markup exactly when no callback node was met, equal to the in-place rendering |
| Marks.RunStack | ext/yrby/crates/prosemirror-html/src/lib.rs:650-720 | A run's wrappers are its active layers in one fixed order, whatever order they were built in |
| Marks.CodeIsExclusive | ext/yrby/crates/prosemirror-html/src/lib.rs:657-717 | On a code run only code, link and the marks claiming those names wrap |
| Marks.PlainRunStack | ext/yrby/crates/prosemirror-html/src/lib.rs:645-700 | By mark names, outermost first: custom marks, link, style, strong, em, s, u, mark, and innermost sub, or sup where there is no sub |
| Marks.CodeRunStack | ext/yrby/crates/prosemirror-html/src/lib.rs:657-661 | A code run has its custom marks, the link, and code unless a rule claims it |
| Marks.CustomStack | ext/yrby/crates/prosemirror-html/src/lib.rs:698-717 | Each registered name on the run wraps it, a later name outside an earlier one; on a code run only code and link |
| Marks.RenderTextRuns | ext/yrby/crates/prosemirror-html/src/lib.rs:620-643 | The loop emits the specified stream into the emitter |
| Marks.MarksPreserveMeaning | ext/yrby/crates/prosemirror-html/src/lib.rs:613-643 | Read back, every character stands under exactly its own run's wrappers and nothing stays open |
| Marks.MeaningSpells | ext/yrby/crates/prosemirror-html/src/lib.rs:620-643 | The meaning of a text has its strings' characters, in order |
| Marks.RunsAreBalanced | ext/yrby/crates/prosemirror-html/src/lib.rs:640-642 | The stream is well nested wherever it is placed |
| Marks.FewestTags | ext/yrby/crates/prosemirror-html/src/lib.rs:613-619 | No markup that reads back the same has fewer tags |
| Merging.MergeChunks | ext/yrby/src/lib.rs:70-78 | One level: ceiling of a sixteenth as many updates, same writes in the same order |
| Merging.MergeUnsent | ext/yrby/src/lib.rs:59-68 | The merge tree terminates and equals one flat merge; it fails only if a merge of at most sixteen does |
| Edit.EveryWriteIsInOnePlace | lib/y/doc.rb:30-77 | Over every interleaving of writes, edits, nesting, failed merges and interrupts, each write is once in exactly one of: the list, one edit's hands, one non-nested edit's result |
| Edit.TakesExactly | lib/y/doc.rb:12-17 | In every run, a take takes a write exactly if no edit holds it and no edit has returned it |
| Edit.NoGapsWithoutOverlap | lib/y/doc.rb:15-17 | In every run whose takes do not overlap, nested edits, failed merges and interrupts included, below a returned write every write has been returned |
| Edit.ConcurrentTakesLeaveAGap | lib/y/doc.rb:15-17 | A run of two takes at once that ends with a later write returned and an earlier one back in the list |
| Edit.AnEditTakesAllThatIsLeft | lib/y/doc.rb:12-17 | Corollary: with no other take in progress an edit takes every write not returned before |
| Edit.NestedUpdateStays | lib/y/doc.rb:67-73 | What a nested edit took is back in the list, and only there, for the outer edit |
| Edit.InnerNeverHandsOver | lib/y/doc.rb:33-43 | In every run, an edit begun while an edit its fiber inherited was still in its block never hands writes over for good |
| Edit.InnerGivesBack | lib/y/doc.rb:67-77 | Whatever ends such an edit's hold on a write, the write is then in the list and nowhere else |
| Edit.InnerWriteGoesWithOuter | lib/y/doc.rb:17-20 | Once the inner edit lets a write go, the outer one, completing undisturbed, hands it over |
| Edit.OuterHandsOver | lib/y/doc.rb:30-44 | An edit begun outside every running one, completing undisturbed, hands over everything in the list |
| Edit.RaisedBlockTakesNothing | lib/y/doc.rb:12-15 | An edit whose block raised takes nothing, then or later; its writes stay for the next edit |
| Edit.Buffer.NativeTake | ext/yrby/src/lib.rs:458-473 | A take empties the list; a failed merge puts it back ahead of what was written meanwhile |
| Edit.Buffer.NativeKeep | ext/yrby/src/lib.rs:476-478 | The update goes back in front |
| Edit.Buffer.TakeUnsent | lib/y/doc.rb:67-77 | Only an uninterrupted take of a non-nested edit lets anything leave the document |
| Blocks.ChildrenOf | ext/yrby/src/lib.rs:866-882 | The listing answers every range count as the root's cells do, text of any length included |
| Blocks.RangeOrdinals | ext/yrby/src/lib.rs:1054-1057 | The blocks in a stretch have exactly the consecutive ordinals the code reports |
| Blocks.RootPositions | ext/yrby/src/lib.rs:1036-1089 | For every root and delta, exactly the new ordinals of blocks that came and the old ordinals of blocks that went |
| Blocks.ApplyUpdateChanges | ext/yrby/src/lib.rs:360-412 | The list is ascending, without repeats, and holds exactly the ordinals some event calls for: inside a block, added, removed |
| Indexes.InsertIndex | ext/yrby/src/shared.rs:123-127 | In range, negative from the end, clamped on both sides |
| Indexes.ElementIndex | ext/yrby/src/shared.rs:131-135 | An element exactly when the index is within the length from either end |
| Indexes.DeleteSpan | ext/yrby/src/shared.rs:139-147 | A span exactly when the index is in the text; its length stops at the end and is never negative |
| Indexes.UnitsAreMonotone | ext/yrby/src/shared.rs:181-205 | Character indexes map to document indexes strictly monotonically |
| Indexes.CharactersAreBoundaries | ext/yrby/src/shared.rs:181-205 | A character's document index never lies inside a surrogate pair |
| Indexes.IndexesAreAdjoint | ext/yrby/src/shared.rs:208-232 | A document index is at or before a character exactly when its own character is |
| Indexes.CharsUndoUnits | ext/yrby/src/shared.rs:208-232 | Converting to units and back is the identity on every in-range index |
| Indexes.UnitsUndoCharsIffBoundary | ext/yrby/src/shared.rs:208-232 | The other round trip is the identity exactly at boundaries; inside a pair it moves to the pair's end |
| Indexes.EncodingIsInjective | ext/yrby/src/shared.rs:160-167 | The units of a text determine its characters |
| Indexes.CharLen | ext/yrby/src/shared.rs:170-178 | The number of characters, each embed one |
| Indexes.ToUnits | ext/yrby/src/shared.rs:181-205 | The nested loops compute the width of the first characters, clamped to the text |
| Indexes.ToChars | ext/yrby/src/shared.rs:208-232 | The nested loops compute the first character at or past the document index |
| Indexes.SharedText.EndOrUnits | ext/yrby/src/shared.rs:152-158 | The append shortcut agrees with the walk |
| Indexes.SharedText.InsertAt | ext/yrby/src/text.rs:85-93 | An insert through units is a clamped insert on the characters |
| Indexes.SharedText.Delete | ext/yrby/src/text.rs:137-149 | A delete through units is a slice-style delete on the characters |

## Left out

- The CRDT engine itself (yrs and Yjs), its byte formats, varints and base64: only what the sync layer relies on is modelled, as operation sets.
- Frame parsing and classification (`classify_message`, `merged_doc_update`, `validateFrame`) and frame-size limits: malformed frames are simply never delivered as messages.
- Errors from decoding an update, except in the sync session, GVL handling, panics and Ruby value conversion.
- Record lookup and adoption in `Y::Document.for`, encrypted columns, authorization and signed grants.
- Awareness and presence, beyond the presence frame that can re-enter a resume.
- The provider, adapters, custom elements and page lifecycle: they appear as the environment that calls the session and reports pending changes.
- The ProseMirror block walker: it has the work-stack and frame discipline of the Lexical one, which is modelled in full; only its text runs, where the two differ most, are here.
- The tables of tags, attribute templates, style filtering, URL schemes and escaping: parameters of the renderer model. Registered mark names come as an alphabetical list.
- Type discovery (`collect_node_types`), Markdown, JSON readers and the Map, Array and XmlText handles.
- The order in which a document's put-back updates are merged after two takes fail at once: the merge of updates does not depend on it.
- An exception raised exactly as `edit` returns, or by a signal trap between a take and its put-back: documented to lose the update.
- u32 wrap-around of lengths, clocks and indexes, and JavaScript's largest safe sequence number: integers are unbounded here.
- ReliableDelivery.OneIntervalBetweenCalls: an interval whose `clearInterval` threw is not counted; its ticks do nothing, because they are no longer the current timer's.
- Protocol.FastRejectAgrees: a corollary for documents without holes and updates whose lowest block of each client depends on its previous clock; `Protocol.FastRejectDisagreesExactly` has no such hypothesis.
- Protocol.ReadyIsExact: the same; `Protocol.ReadyExactly` has no such hypothesis.
- Protocol.AdvancesIsExact: the corollary without holes and Skips; `Protocol.AdvancesExactly` covers every update.
- Store.QuarantineIsExact: the corollary without holes and Skips; `Store.SurvivorsExactly` covers all tables.
- Refinement.QueueRefinesClient: a queue that is destroyed drops its updates, so destroy is not among its moves; that the injected merge keeps the operations of what it merges is a hypothesis.
- Edit.AnEditTakesAllThatIsLeft: the corollary for a take with no other in progress; `Edit.TakesExactly` covers every take.
- Marks.FewestTags: stated for texts without empty runs, which a shared text's diff never lists; an empty run may open and close tags for nothing.
