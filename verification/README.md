# Halro verification

A Dafny model of the parts of Halro whose correctness rests on whole runs
rather than on single functions, with proofs that cover every run.

## What is modelled

**The durable transition collector** (`Transitions`, `Durable*`,
`SnapshotComparison`).  For each member of an HA cluster it keeps a hash-linked
journal of role and term changes, cut into immutable segments and one manifest,
replayed by a stateful verifier.  `DurableDocument` says, about documents alone,
when one more document extends an accepted prefix; `DurableVerifier` is the
verifier's loop over its maps, proved to decide exactly that; `DurableArchive`
is capture, rollover and open, with each atomic file replacement given one of
five outcomes (written, not written, written but reported as failed, death
before, death after).  `DurableRuns` shows that every run is a run of one plain
log per journal, and `DurableFetch` which fetched pages it takes.
`DurableReopen`, `DurableUpgrade`, `DurableLimits` and `DurableExample` say when
the collector can be opened again; `DurableHandoff`, `DurableCommit`,
`HandoffExample`, `DurableFreeze` and `DurableImport` cover the handoff to a new
journal and the import of a retired tail; `DurableSnapshot` and `SnapshotComparison` the frozen copy and its
comparison with the members' own reports.

**The polled event archive** (`EventArchive`, `EventSources`): bounded rings
copied into a bounded log with gap markers.

**Control plane** (`CapabilityDetection`, `Deployments`, `DeploymentAuthority`,
`TargetCache`, `AdminSessions`): the budgeted detection runner, the deployment
life cycle with its test evidence, where capabilities may come from, the
sequence-guarded target cache, and sessions with a compare-and-set refresh.

**Parsers and checks** (`StreamValidator`, `DuplicateMembers`, `ClientFinal`).

## How to read it

Code that changes state is a class or a method with loops, proved against a
specification function of the old state; the properties are lemmas about that
function and about runs of it.  Concurrent code is a step system: one action per
locked section, an event log, and theorems about the log of every run.  Digests
are strings compared for equality, the event root is an arbitrary function of
the event sequence, the encoded size an arbitrary function of the document, and
times are integers.  Clocks, upstream answers and other requests are parameters
or arbitrary values.

## Where the code does not keep a promise

Three ways lead to a collector directory that its own verifier refuses to
open.  Nothing acknowledged is lost in any of them.

- `prepareDurableCapture` compares neither the member's committed sequence nor
  the clock with the last closed segment, while `verify` does.  An acknowledged
  page can therefore make the archive unopenable (`ClockRunsBack`); exactly when
  is `RegressionExactly`.
- Half a rollover that the process survives leaves a segment behind.  A later
  page that is stored without a rollover makes the archive unopenable
  (`HalfRolloverSurvived`) unless it repeats the record (`FailedRolloverExactly`).
- A page whose file replacement took effect but was reported as failed stays in
  the manifest while memory goes on without it.  If the next rollover dies
  between segment and manifest, the archive is unopenable (`PageInDoubt`) unless
  that page repeats the record (`PageInDoubtExactly`).

The promise to attentive clients needs a refresh interval above zero, that is an
idle timeout of at least four nanoseconds (`TinyTimeoutIdlesOut`).

What holds of every run is `RunReplays`: with heads and a clock that do not run
back, everything written is something `verify` accepts, whatever each write
does.  `ReachableOpens` turns this into the exact condition for an open, and
`AlwaysReopens` names the write outcomes after which a capture must not go on.
It assumes that a rollover of a document with events does not enlarge its
encoding: it drops at least one event and may add a digit to a counter.

The results on test evidence take one fact about the catalog as given: the
feature digest of an entry is a function of its model digest, because both are
digests of the same entry and the features are part of what the model digest
covers (internal/modelcatalog/catalog.go:291-330).  Where a snapshot names no
feature digest, nothing is assumed of it.

## Model

| member | source | states |
|---|---|---|
| Transitions.ValidatePage | cmd/halro-ha-health/durable_transitions.go:157-201 | A fetched page is accepted iff cursor, schema and every event hold together; the returned cursor is the one behind the last event; each refusal has its own exact condition. |
| Transitions.AcceptsConcat | cmd/halro-ha-health/durable_archive.go:251-263 | Walking two runs of events one after the other accepts iff walking their concatenation does, so cutting a journal into segments loses no check. |
| Transitions.Numbering | cmd/halro-ha-health/durable_archive.go:251-263 | The k-th event of an accepted walk carries the start number plus k. |
| Transitions.TermsMonotone | cmd/halro-ha-health/durable_transitions.go:73-96 | Along an accepted journal term and promised term never fall and the promised term is never below the term. |
| Transitions.ChangesExactly | cmd/halro-ha-health/durable_transitions.go:73-96 | Between any two member states a valid event exists iff neither term nor promised term falls and the later one is a replica, a waiting member that promised on, or a replica turned primary of exactly the term it had promised; and which kinds of event serve. |
| Transitions.NoStateRepeats | cmd/halro-ha-health/durable_transitions.go:73-96 | No (role, term, promised term) state occurs twice in an accepted journal: a lexicographic measure rises with every event. |
| Transitions.PromotesRise | cmd/halro-ha-health/durable_transitions.go:73-96 | Of two promotes in one journal the later one has the strictly higher term. |
| Transitions.PrimaryOpensWithPromote | cmd/halro-ha-health/durable_transitions.go:73-96 | Every stretch as primary that does not start at the baseline opens with a promote, and the next event ends it. |
| Transitions.TimesOrdered | cmd/halro-ha-health/durable_archive.go:251-263 | Event times never decrease along an accepted journal. |
| DurableDocument.ValidStoredChain | cmd/halro-ha-health/durable_archive.go:236-265 | The loop with a running cursor decides exactly chain validity: header, baseline start, linkage of every event, final cursor, time and head. |
| DurableDocument.OrderKeyInjective | cmd/halro-ha-health/durable_archive.go:413-419 | The text key the verifier compares fixes incarnation and journal, because journal identifiers have one length. |
| DurableVerifier.Verifier.AdmitChain | cmd/halro-ha-health/durable_archive.go:380-449 | One chain is admitted iff it is valid, new in this document, keeps its place, continues the remembered chain and, for a repeated incarnation, is backed by a handoff; the remembered maps gain exactly its entry. |
| DurableVerifier.Verifier.VerifyChains | cmd/halro-ha-health/durable_archive.go:378-450 | The walk over all nodes, in any map order, succeeds iff every chain of the document is admissible against the state it started from, and records exactly the document. |
| DurableVerifier.Verifier.Verify | cmd/halro-ha-health/durable_archive.go:361-467 | verify accepts a document iff it extends the accepted prefix in the sense of AcceptsNext, a statement about documents alone; afterwards the fields are the ones the longer prefix determines. |
| DurableVerifier.NothingLost | cmd/halro-ha-health/durable_archive.go:460-462 | Comparing two map sizes decides whether an earlier journal is missing. |
| DurableSoundness.AcceptedAligned | cmd/halro-ha-health/durable_archive.go:388-449 | In an accepted document every earlier chain stands at the same node and index with the same journal, although positions are never compared. |
| DurableSoundness.ReplayComplete | cmd/halro-ha-health/durable_archive.go:361-467 | After any accepted run of documents the concatenated events of every journal form one accepted walk from its baseline to its cursor, and unknown journals have no events. |
| DurableSoundness.VerifierSoundness | cmd/halro-ha-health/durable_archive.go:361-467 | After any accepted run each journal is numbered 1 to its cursor and linked in digest, role, term, promised term and time, event by event. |
| DurableSoundness.ReplayGrows | cmd/halro-ha-health/durable_archive.go:361-467 | From any document of an accepted run to any later one, chains keep their place, journals are never lost, handoffs only grow at the end and histories only grow. |
| DurableSoundness.HandoffsPaired | cmd/halro-ha-health/durable_archive.go:388-411 | The count of continued journals is a pigeonhole: each handoff is the only one for its new journal and backs a chain right behind the journal it retires. |
| DurableCapture.PrepareCapture | cmd/halro-ha-health/durable_archive.go:578-625 | The loops compute Prepare, which TakenExactly characterises: which refusal applies, or the document with the page added. |
| DurableFetch.TakenExactly | cmd/halro-ha-health/durable_archive.go:578-625 | For any page and cursor: it is taken iff it belongs to a member of the cluster, has a time, and either goes on in the node's newest chain (same incarnation and baseline, events leading from its cursor and last date to the new one, head not behind) or starts a chain of its own from a sound baseline, with an incarnation the node and a journal nobody had. |
| DurableFetch.FetchedTaken | cmd/halro-ha-health/durable_archive.go:519-528 | A page that passed the fetcher's checks from the cursor the archive gives out is taken iff its node is a member and it joins the newest chain without being dated before it, or its incarnation and journal are new. |
| DurableFetch.CapturedExactly | cmd/halro-ha-health/durable_archive.go:530-576 | With working writes a capture is acknowledged iff the page is taken and everything that has to be written fits; stored is then the page added to the document or to its rollover, and the segment closed is the document before. |
| DurableFetch.SmallPageClosesNothing | cmd/halro-ha-health/durable_archive.go:545-551 | A page that leaves the document within the target, or brings no events, closes no segment, whatever the writes do. |
| DurableFetch.AcknowledgedExactly | cmd/halro-ha-health/durable_archive.go:719-757 | In every run a page fetched from where the process stands is acknowledged, with working writes, iff it is welcome and there is room. |
| DurableCapture.CapturePositions | cmd/halro-ha-health/durable_archive.go:578-625 | A prepared page changes one chain, the last of its node, and nothing else; a new chain only for a journal not seen before. |
| DurableCapture.CaptureAppends | cmd/halro-ha-health/durable_archive.go:578-625 | For every journal: a prepared page appends exactly its events to its own journal and nothing to any other. |
| DurableCapture.RetiredUntouched | cmd/halro-ha-health/durable_archive.go:587-607 | No page that is accepted belongs to a journal some handoff retired. |
| DurableCapture.CaptureAccepted | cmd/halro-ha-health/durable_archive.go:578-625 | Behind any accepted prefix the prepared document is one verify accepts iff head and clock are not behind what the last closed segment recorded for the journal. |
| DurableRollover.RollKeepsHistory | cmd/halro-ha-health/durable_archive.go:327-341 | For every journal, closing a segment and starting an empty manifest leaves the history as it was. |
| DurableRollover.RollAccepted | cmd/halro-ha-health/durable_archive.go:327-341 | The rolled manifest is always accepted behind the segment it was rolled from. |
| DurableArchive.Files.ListSegments | cmd/halro-ha-health/durable_archive.go:271-297 | Succeeds iff the segments are numbered from zero without a hole. |
| DurableArchive.ReplayArchive | cmd/halro-ha-health/durable_archive.go:484-506 | Replay succeeds iff every segment is present, small enough and accepted in order, and then the manifest. |
| DurableArchive.Archive.RotateLocked | cmd/halro-ha-health/durable_archive.go:627-662 | For every outcome of its two writes, disk, memory and result are those of Rotation: segment first, manifest second, memory last. |
| DurableArchive.Archive.Capture | cmd/halro-ha-health/durable_archive.go:530-576 | For every outcome of its up to three writes, disk, memory and acknowledgement are those of Capturing; memory moves only with an acknowledgement or a finished rollover. |
| DurableArchive.OpenArchive | cmd/halro-ha-health/durable_archive.go:158-234 | For every outcome of its writes the open leaves the disk and yields the document of Opening: version 1 upgrade, completion of an interrupted rollover, full replay. |
| DurableArchive.RecoverArchive | cmd/halro-ha-health/durable_archive.go:198-217 | An extra segment is accepted only if it equals the manifest and replays; the rollover is then completed. |
| DurableRuns.StepRefines | cmd/halro-ha-health/durable_archive.go:530-576 | Every step of the system (open, capture, handoff, death at any write) is a step of one plain log per journal, and keeps the invariant that makes this readable. |
| DurableRuns.OpenStep | cmd/halro-ha-health/durable_archive.go:158-234 | Opening, upgraded, recovered or failed, changes no history; a successful one serves a document that replays. |
| DurableRuns.CaptureEnds | cmd/halro-ha-health/durable_archive.go:530-576 | What a process serves grows by exactly the page iff the capture is acknowledged; what is stored is at most that page ahead. |
| DurableRuns.RunGrows | cmd/halro-ha-health/durable_archive.go:530-662 | In every run, whatever was served at one moment is a prefix of what is served at any later one, for every journal. |
| DurableRuns.AcknowledgedSurvives | cmd/halro-ha-health/durable_archive.go:530-662 | In every run, an acknowledged page stands in its journal, where it was appended, in every later state. |
| DurableRuns.ExactLog | cmd/halro-ha-health/durable_archive.go:530-662 | In every run without a page written but reported as failed, memory and disk both hold exactly the plain log of the acknowledged pages in order. |
| DurableReopen.OpensExactly | cmd/halro-ha-health/durable_archive.go:158-234 | An open with working writes succeeds iff the directory replays and any extra segment is the manifest itself. |
| DurableReopen.RolledReplays | cmd/halro-ha-health/durable_archive.go:198-217 | The second replay after a completed rollover cannot fail. |
| DurableReopen.CaptureReplays | cmd/halro-ha-health/durable_archive.go:578-625 | A page keeps the archive replayable iff its head and the clock do not run back behind the last segment. |
| DurableReopen.StepKeeps | cmd/halro-ha-health/durable_archive.go:123-234 | Every step, with each of the five outcomes at every write, keeps the stored manifest and the served document ones that verify accepts behind the stored segments, as long as heads and clock do not run back. |
| DurableReopen.RunReplays | cmd/halro-ha-health/durable_archive.go:361-467 | In every run from a new or version 1 directory, whatever each write does, the stored manifest past version 1 and the served document replay. |
| DurableReopen.ReachableOpens | cmd/halro-ha-health/durable_archive.go:158-234 | In every such run a directory past version 1 opens iff its manifest fits the size limit and equals any segment of its own generation; nothing else can go wrong. |
| DurableReopen.FreshOpenable | cmd/halro-ha-health/durable_archive.go:158-234 | A new directory opens. |
| DurableUpgrade.OldOpensExactly | cmd/halro-ha-health/durable_archive.go:174-198 | A version 1 directory opens iff it names this cluster, fits before and after the upgrade, and every chain leads from its baseline to its cursor, no node repeats an incarnation and no journal occurs twice. |
| DurableReopen.AlwaysReopens | cmd/halro-ha-health/durable_archive.go:123-234 | If moreover no capture goes on after a write that took effect unreported or after half a rollover, every reachable directory opens iff the first one did; deaths anywhere and failed writes of pages, segments, opens and handoffs are all allowed. |
| DurableLimits.RolloverKeepsVerdict | cmd/halro-ha-health/durable_archive.go:545-560 | The second prepare after a rollover decides as the first did, so its refusal branch is never taken. |
| DurableLimits.RegressionExactly | cmd/halro-ha-health/durable_archive.go:578-625 | After any acknowledged capture the archive opens again iff head and clock were not behind the segment the page will be compared with. |
| DurableLimits.FailedRollover | cmd/halro-ha-health/durable_archive.go:627-662 | Half a rollover that the process survives, by any of the ways it can happen, leaves memory as it was beside its own segment, and the directory still opens. |
| DurableLimits.FailedRolloverExactly | cmd/halro-ha-health/durable_archive.go:627-662 | From there, a page acknowledged without a rollover leaves the directory openable iff it repeats what is already recorded. |
| DurableLimits.PageInDoubtExactly | cmd/halro-ha-health/durable_archive.go:562-576 | A page that reached the manifest but was reported as failed, followed by a rollover that dies between segment and manifest: the directory opens iff that page repeats what is already recorded. |
| DurableExample.PagesPass | cmd/halro-ha-health/durable_transitions.go:157-201 | Every page of the runs below passes the check of fetched pages with the cursor the process holds. |
| DurableExample.ClockRunsBack | cmd/halro-ha-health/durable_archive.go:425-426 | A run in which the clock falls behind the last segment: the page is acknowledged and no later open succeeds, for every hash. |
| DurableExample.HalfRolloverSurvived | cmd/halro-ha-health/durable_archive.go:655-657 | A run in which the manifest write of a rollover fails, the process goes on and a page of the other node is acknowledged: the directory opened before that page and never after. |
| DurableExample.PageInDoubt | cmd/halro-ha-health/durable_archive.go:655-657 | A run in which a page is written but reported as failed and the next rollover dies half way: no later open succeeds. |
| DurableHandoff.Preflight | cmd/halro-ha-health/reseed_handoff_preflight.go:66-162 | A proof is issued iff manifest, frozen snapshot, retired chain, approvals, identities, times and term order all hold, and it carries exactly the evidence. |
| DurableHandoff.CommitHandoff | cmd/halro-ha-health/durable_reseed_commit.go:34-137 | The manifest changes iff the preflight holds on a copy equal to the live files, the old head and new baseline match, and the new document fits and replays; for every write outcome. |
| DurableHandoff.HandoffKeepsEvents | cmd/halro-ha-health/durable_reseed_commit.go:106-123 | A handoff adds an empty journal and changes no history. |
| DurableCommit.HeadMatches | cmd/halro-ha-health/durable_reseed_commit.go:64-70 | On a copy equal to the frozen one the preflight already settles the comparison of old heads. |
| DurableCommit.CommitExactly | cmd/halro-ha-health/durable_reseed_commit.go:64-133 | On an archive equal to its frozen copy, a preflighted handoff whose new baseline matches is committed iff source and member differ, the seed term is positive, the new journal is valid and unknown, the remaining digests are valid, a member at its baseline reports that baseline's digest, the clock is not behind the last frozen copy, and the document fits. |
| DurableCommit.HandOverExactly | cmd/halro-ha-health/durable_reseed_commit.go:34-137 | The step of a run that hands over writes the new manifest under exactly those conditions, with any outcome of the write. |
| DurableCommit.CommitRecords | cmd/halro-ha-health/reseed_handoff_preflight.go:150-162 | A committed handoff is appended to the earlier ones, carries the evidence field by field, and is one that a later comparison with the two members' own reports accepts. |
| HandoffExample.HandoffCommitted | cmd/halro-ha-health/durable_reseed_commit.go:34-137 | A run that stores a page, stops and commits a handoff whose retired copy was frozen before the replacement's: the handoff is in the manifest and the archive opens, for every hash. |
| DurableHandoff.ReplayClimbs | cmd/halro-ha-health/durable_archive.go:361-467 | Every archive that replays meets all that GenerationsRise needs, except the seed terms, which verify does not check. |
| DurableHandoff.GenerationsRise | cmd/halro-ha-health/reseed_handoff_preflight.go:140-149 | Along all journals of one node and incarnation the promised term never falls: each starts where no earlier one had got past. |
| DurableFreeze.RetiredRefused | cmd/halro-ha-health/durable_archive.go:587-607 | No prepared page belongs to a journal another chain of its node follows. |
| DurableFreeze.CommitFreezes | cmd/halro-ha-health/durable_reseed_commit.go:85-133 | A commit changes no history, retires the old journal, and its history hashes to the recorded root. |
| DurableFreeze.HandoffFreezes | cmd/halro-ha-health/durable_archive.go:451-459 | In every run, from a committed handoff on, the retired journal is the same in every later state and still hashes to the recorded root. |
| DurableFreeze.TermsRiseOverRuns | cmd/halro-ha-health/reseed_handoff_preflight.go:140-149 | In every state of every run, in the served document and in the stored manifest past version 1, promised terms never fall along the journals of one node and incarnation; only the preflight guarantees it. |
| DurableImport.WalkPage | cmd/halro-ha-health/retired_member_reconcile.go:79-87 | The walk succeeds iff every event links to its predecessor and returns the cursor behind the page. |
| DurableImport.CheckRead | cmd/halro-ha-health/retired_member_reconcile.go:53-91 | A read of the snapshot is let through iff member and head are the chain's, the inventory is unchanged, the page is consistent and every event links. |
| DurableImport.ImportTail | cmd/halro-ha-health/retired_member_reconcile.go:42-102 | The import ends, reading at most one page more than it imports events; the journal is its old history followed by exactly the imported events and no other journal changes; on success these number committed minus from and end at the authenticated head. From a frozen member whose tail continues the chain, with room and working writes, it succeeds and imports exactly that tail, however it is cut into pages. |
| DurableSnapshot.VerifySnapshot | cmd/halro-ha-health/durable_snapshot.go:72-203 | Verification succeeds iff the copy is readable, numbered and replays, and reports each chain with the hash of its whole history; the final handoff check is not among the conditions, because it cannot fail. |
| DurableSnapshot.HandoffsHold | cmd/halro-ha-health/durable_snapshot.go:195-201 | The snapshot's own check of each handoff's root. |
| DurableSnapshot.ReportExactly | cmd/halro-ha-health/durable_snapshot.go:173-193 | The report lists exactly the chains of the members, each with the hash of its whole history, and exactly the members without a chain. |
| DurableSnapshot.SnapshotRoots | cmd/halro-ha-health/durable_snapshot.go:131-150 | The first pass succeeds iff the copy replays, and then holds for every journal of the manifest its whole history over all segments. |
| SnapshotComparison.CompareAllChains | cmd/halro-ha-health/snapshot_head_comparison.go:223-279 | The comparison through lookup tables and counts succeeds iff every member is covered, chains and reports are distinct, each report agrees with a chain and both ends of every handoff match. |
| SnapshotComparison.AllMatchBijection | cmd/halro-ha-health/snapshot_head_comparison.go:223-279 | A successful comparison is a bijection: each chain has exactly one agreeing report. |
| SnapshotComparison.HonestAgrees | cmd/halro-ha-health/snapshot_head_comparison.go:203-219 | A chain agrees with the report of a member that stands where it stands iff the collector has caught up with the head it saw, and with no other report. |
| SnapshotComparison.CountsMeet | cmd/halro-ha-health/snapshot_head_comparison.go:223-279 | The last count comparison refuses exactly the tables in which a repeated chain was overwritten. |
| EventArchive.KeyTextInjective | cmd/halro-ha-health/event_archive.go:262-264 | Cursor keys of different nodes or sources never coincide, whatever a node is called. |
| EventArchive.Draft.Append | cmd/halro-ha-health/event_archive.go:306-312 | Kept records are the last at most 1000 of everything appended and the dropped counter is the number of the others. |
| EventArchive.Draft.CaptureSource | cmd/halro-ha-health/event_archive.go:262-304 | One source of one member: the markers and transitions appended and the cursor left are those of Polled. |
| EventArchive.Draft.CaptureMember | cmd/halro-ha-health/event_archive.go:191-251 | One member: failure, resumption or capture of each of its three sources. |
| EventArchive.GroupStatuses | cmd/halro-ha-health/event_archive.go:181-190 | Statuses are grouped by inventory member, strangers left out, order kept. |
| EventArchive.Archive.Capture | cmd/halro-ha-health/event_archive.go:170-260 | A poll that is stored is PollAll on what was stored before; one that is not stored changes nothing. |
| EventArchive.FreshExactly | cmd/halro-ha-health/event_archive.go:288-302 | A poll archives exactly the transitions of a valid ring past the cursor: none skipped, none twice. |
| EventArchive.MarkersLegal | cmd/halro-ha-health/event_archive.go:265-287 | After the markers of a poll no outage is open, and a previous transition stays the reference only if the ring reaches back to it. |
| EventArchive.FreshLegal | cmd/halro-ha-health/member_status.go:392-427 | Transitions of a valid ring continue each other and the cursor without a hole. |
| EventArchive.LegalReads | cmd/halro-ha-health/event_archive.go:262-312 | What the step rules mean for a reader: gap completeness and strict alternation. |
| EventArchive.GapsMarked | cmd/halro-ha-health/event_archive.go:170-312 | After any run of polls, restarts, failed writes and deaths, for every node and source, in file and memory: two transitions are consecutive ones of one process and incarnation or another record of the key lies between them, and outage markers alternate beginning with failed. |
| EventSources.MemberFiles | cmd/halro-ha-health/event_archive.go:191-251 | One poll of a member files the ring of each source under that source, with its markers and its cursor. |
| EventSources.MemberRests | cmd/halro-ha-health/event_archive.go:229-250 | A source the member no longer has is at rest: not watched, outage closed; a missing live ring changes nothing. |
| EventSources.MarkersExactly | cmd/halro-ha-health/event_archive.go:262-287 | Which markers a poll of a source writes: each of the seven iff its condition on cursor, incarnation, process and ring holds. |
| EventSources.RecordsSourced | cmd/halro-ha-health/event_archive.go:170-312 | In every run every archived transition, in file and memory, was in the ring which that source of that node published in some poll, in the incarnation and process it is filed under. |
| EventSources.StoredPollComplete | cmd/halro-ha-health/event_archive.go:170-312 | In every run a stored poll leaves in the file, under its own source, every transition a ring shows past its cursor. |
| EventSources.SilenceMarked | cmd/halro-ha-health/event_archive.go:198-212 | In every run a stored poll that a member did not answer, or answered twice or with an error, leaves a collection_failed marker open for its publisher and for each other source it had. |
| CapabilityDetection.Runner.Put | internal/store/bolt/model_capability_detection.go:92-103 | A record is stored iff its revision is still the stored one and the store works; cancel requests may slip in before. |
| CapabilityDetection.Runner.Send | internal/app/admin_model_capability_detections.go:576 | A request leaves only for the last recorded, running, unsent call, with its dependencies confirmed. |
| CapabilityDetection.Runner.Spend | internal/app/admin_model_capability_detections.go:536-603 | Reserve, mark running, send, re-read: one new call and one request, or the run stops; undisturbed, it does not stop. |
| CapabilityDetection.Runner.SpendRoot | internal/app/admin_model_capability_detections.go:729-781 | The identification variant, stopping on cancel before and after the request. |
| CapabilityDetection.Runner.AskRoots | internal/app/admin_model_capability_detections.go:634-666 | Roots of one plan until one is supported: the results show every answer on the binding as it came, the kept status is the most telling one and supported iff something was, and it ends only when a root answered, all roots were asked or the budget is spent. |
| CapabilityDetection.RankOrder | internal/app/admin_model_capability_detections.go:792-809 | Which outcome tells an operator more. |
| CapabilityDetection.Runner.Identify | internal/app/admin_model_capability_detections.go:618-723 | A binding is resolved only if it is a candidate and, among several, the only one that answered, with all its answers as results; undisturbed, it is resolved unless nobody (failed) or several (ambiguous) answered, and every candidate was given its chance. |
| CapabilityDetection.Runner.ProbeNext | internal/app/admin_model_capability_detections.go:515-603 | One round of the probe loop. Undisturbed, the request is sent iff no result is known, every dependency is supported and budget is left; its answer is stored as it came, and otherwise a missing result becomes not probed. |
| CapabilityDetection.Runner.Finalize | internal/app/admin_model_capability_detections.go:839-893 | The final record keeps every result, adds missing capabilities as not probed, and is finished only with an answer of support. |
| CapabilityDetection.Runner.Run | internal/app/admin_model_capability_detections.go:440-604 | Every state a run passes through, under any cancel requests, store failures and timeouts, is safe. Undisturbed, it ends with every planned capability accounted for on the resolved binding, or unresolved with the reason, or without a plan. |
| CapabilityDetection.BudgetKept | internal/app/admin_model_capability_detections.go:515-603 | In a safe state requests are at most the recorded calls and those at most the budget, no binding is asked the same capability twice, and every dependency was confirmed on the same binding before. |
| CapabilityDetection.AnswersRecorded | internal/app/admin_model_capability_detections.go:583-603 | In every state past identification a completed result is what came back for that capability on the resolved binding, unless a cancel closed it, and every answer but the last is recorded. |
| Deployments.Topology.CreateDeployment | internal/app/admin_deployments.go:142-189 | One step of the run: a new deployment is stored disabled and untested, or refused. |
| Deployments.Topology.UpdateDeployment | internal/app/admin_deployments.go:212-368 | One step of the run, with the exact condition of each reply: widening disables, enabling needs a current healthy test, and a test is carried forward only over an unchanged claim that stays in service. |
| Deployments.Topology.DeleteDeployment | internal/app/admin_deployments.go:372-417 | One step of the run: saved iff found at the expected revision with no route in the way. |
| Deployments.Topology.RecordTest | internal/app/admin_deployments.go:479-527 | One step of the run: a test is recorded iff the probed revision is still the stored one, whatever ran meanwhile, and as healthy iff the probe succeeded. |
| Deployments.TestStored | internal/app/admin_deployments.go:479-527 | In any run a saved test leaves the deployment with a current status that is healthy iff the probe succeeded, and its service as it was. |
| Deployments.UnchangedFeatures | internal/app/capability_audit.go:104-109 | The comparison of snapshots, which falls back to model digests where a feature digest is missing, never hides a change of the feature digest. |
| Deployments.UpdatedOk | internal/app/admin_deployments.go:256-332 | Every accepted update keeps the evidence invariant. |
| Deployments.EvidenceOverRuns | internal/app/admin_deployments.go:256-332 | After any run of handlers an enabled deployment claims no more than it claimed when an action of the run recorded a successful probe of it with the same target, and a current status came from a recorded probe of exactly the present capabilities, source, snapshot capabilities and feature digest. |
| Deployments.ReturnNeedsTest | internal/app/admin_deployments.go:280-332 | In any run a deployment that left service, by an edit or because an edit widened it, is enabled again only after a later action recorded a successful probe of it. |
| Deployments.IntoService | internal/app/admin_deployments.go:142-368 | Any new deployment can be created, tested and taken into service with its own claim. |
| Deployments.ServiceExactly | internal/app/admin_deployments.go:290-312 | A saved update puts into service exactly what asks for it without gaining a capability. |
| Deployments.TestCarriedExactly | internal/app/admin_deployments.go:307-335 | A current test stays current over a saved update iff the outbound path is the tested one, the claim is the same and the deployment does not leave service. |
| Deployments.DeletedForGood | internal/app/admin_deployments.go:372-417 | In any run a saved delete takes the deployment out of service for good: no later action changes it. |
| Deployments.TargetFixed | internal/app/admin_deployments.go:256-266 | Nothing of a target may change, except that a missing kind may be filled in. |
| Deployments.SameModelUnchanged | internal/app/capability_audit.go:104-109 | Snapshots of one catalog entry never count as a change, whichever of them names its feature digest. |
| DeploymentAuthority.Resolve | internal/app/admin_deployments.go:1091-1247 | For every input: if all candidate kinds match and some open binding can serve the request, the answer is the best of them (established by the catalog, else declared where the catalog knows the model, else declared elsewhere; then by profile), refused iff a claimed revision is not its entry's; otherwise a refusal. What is resolved stays within an enabled binding and has an authority. |
| DeploymentAuthority.ChosenExists | internal/app/admin_deployments.go:1124-1170 | Whenever some open binding could serve the request, one is chosen. |
| DeploymentAuthority.EstablishedExactly | internal/app/admin_deployments.go:1098-1196 | The best rank in plain terms: an enabled binding within the client's filters, accepted and served, whose builtin or signed entry, the mapped one if any, and own ceiling hold everything asked. |
| DeploymentAuthority.DeclaredExactly | internal/app/admin_deployments.go:1197-1245 | The lower ranks in plain terms: no mapped model, an operation, consistent dependencies, the binding's ceiling, and a declaration made now or before. |
| DeploymentAuthority.EveryCapabilityTraced | internal/app/admin_deployments.go:559-681 | Over every run of accepted edits each capability, in use or only declared, traces to a reviewed entry clamped to its binding or to an edit that said operator_declared. |
| TargetCache.HoldsExactly | internal/app/admin_invocation_targets.go:450-464 | A fetch finds its own number in the map iff it registered last since the last clear. |
| TargetCache.StepKeeps | internal/app/admin_invocation_targets.go:396-470 | Every locked section keeps the invariant between log, map and calls. |
| TargetCache.OnlyTheLastPublishes | internal/app/admin_invocation_targets.go:450-469 | In any interleaving a fetch publishes iff nobody registered for its key after it and nothing cleared the key since. |
| TargetCache.ClearIsFinal | internal/app/admin_invocation_targets.go:1018-1032 | In any interleaving a fetch registered before a clear never publishes after it. |
| TargetCache.ServedWasListed | internal/app/admin_invocation_targets.go:398-407 | In any interleaving what is served for a key and a pair of revisions was listed with that pair by a fetch that registered for the key after its last clear. |
| TargetCache.PublishedServes | internal/app/admin_invocation_targets.go:398-470 | In any interleaving what a fetch publishes is served for five minutes to every read with its revisions, until the key is cleared or published again. |
| AdminSessions.MemoryStore.Swap | internal/adminauth/memory_store.go:62-77 | A refresh replaces a session iff it is still there, unchanged and unexpired. |
| AdminSessions.Authenticate | internal/adminauth/session.go:95-136 | A call succeeds iff the session is there, unexpired and of the present generation; it then returns the stored session, the same one, seen within the refresh interval and with no new idle expiry past the absolute one; a refused session is gone; no other session changes. |
| AdminSessions.ServingIsCalls | internal/adminauth/session.go:95-136 | Any series of authenticated calls leaves in the store exactly the session those calls leave one after another, or none. |
| AdminSessions.UndisturbedCall | internal/adminauth/session.go:95-136 | The four interleavable steps of a call, run without interruption, have exactly the effect of Authenticate. |
| AdminSessions.NeverIdlesOut | internal/adminauth/session.go:118-128 | A client whose calls follow each other by at most the idle timeout less the refresh interval never idles out before the absolute expiry: its session stays in the store. |
| AdminSessions.RefreshedExactly | internal/adminauth/session.go:118-128 | A live session is written again iff it was not seen within the last minute or within a quarter of the idle timeout, and then idles out one idle timeout from now but never past its absolute expiry. |
| AdminSessions.TinyTimeoutIdlesOut | internal/adminauth/session.go:118-128 | The exception: when the refresh interval rounds to zero and the idle timeout is below the absolute one, such a client is refused. |
| AdminSessions.RevocationHolds | internal/adminauth/session.go:182-187 | In any interleaving a call that entered after a revocation never passes, whatever refreshes race with it. |
| AdminSessions.NoSessionOutlives | internal/adminauth/session.go:69-93 | In any interleaving a call passes only before its session's creation plus the absolute lifetime. |
| StreamValidator.Validator.Accept | internal/anthropicapi/stream.go:17-106 | One event is accepted and moves the state exactly as Step says; a refused event changes nothing. |
| StreamValidator.Validator.Finalize | internal/anthropicapi/stream.go:108-113 | A stream is complete iff started, stopped and without an open block. |
| StreamValidator.ValidateStream | internal/anthropicapi/stream.go:17-113 | Feeding a whole trace and finalizing succeeds iff the trace is in the grammar. |
| StreamValidator.GrammarExactly | internal/anthropicapi/stream.go:17-113 | The machine accepts and finalizes a trace iff it opens with its only message_start, each index projects to (start, matching deltas, stop)*, only pings lie between message_delta and the end, and it ends with message_stop after a message_delta or with error. |
| StreamValidator.OrdinaryMessage | internal/anthropicapi/stream.go:17-113 | Thinking with its signature, text and a tool call, each with any number of deltas, form a valid message. |
| DuplicateMembers.WalkForDuplicates | internal/anthropicapi/types.go:546-584 | The recursive loops consume and decide exactly as Walk on the tokens to come. |
| DuplicateMembers.WalkValue | internal/anthropicapi/types.go:546-584 | On the tokens of any JSON value, followed by anything, the walk consumes exactly the value if no object in it repeats a name, and fails otherwise. |
| DuplicateMembers.RejectDuplicates | internal/anthropicapi/types.go:540-544 | Success iff no object at any depth repeats a member name (section 4 of RFC 8259). |
| DuplicateMembers.ReadersAgree | internal/anthropicapi/types.go:530-538 | Without repeats, first-wins and last-wins readers see the same value at every path. |
| ClientFinal.CheckSeries | cmd/halro-ha-health/client_final.go:268-295 | One series passes iff its considered points form a gapless chain from before the window to the present; the times returned are theirs. |
| ClientFinal.ValidMatrix | cmd/halro-ha-health/client_final.go:255-311 | A matrix is accepted iff it has as many series as expected, distinct and expected keys, passing series and aligned times; the result then covers exactly the expected keys. |
| ClientFinal.MatrixCovers | cmd/halro-ha-health/client_final.go:255-311 | In an accepted matrix every expected series has, at every instant of the five minutes, a sample at most thirty seconds old; gauges show the wanted value throughout and counters never fall. |
| ClientFinal.RegularPasses | cmd/halro-ha-health/client_final.go:268-295 | A series sampled at least every thirty seconds from before the five minutes to the present, with the wanted values, passes. |

## Left out

- File permissions, locks, JSON encoding, fsync and read errors of single files: a document store with atomic replacement stands in their place.
- The collector's list of recent transitions, byte counters, problem texts and views: display data derived from the documents.
- Wrap-around of generation numbers and of a journal's own number past 2^64 in stored chains and pages: the model adds there in unbounded integers; the single-event check wraps as the code does.
- Sorting of member lists and of the list of matches: the model takes them in the order the code has after sorting.
- Time zones: times are integers. `verify` compares handoffs as whole values (cmd/halro-ha-health/durable_archive.go:367-368), and the operator's frozen_at is not brought to UTC (cmd/halro-ha-health/reseed_handoff_preflight.go:160), so in the code one with another offset can compare unequal to itself once it has been written and read again.
- SHA-256, HMAC and inventories: opaque values and functions; that a member's files carry a valid MAC is a field of its report.
- Preflight and CommitHandoff take the members' authenticated reports as values; how they are read from snapshot directories is not part of the model.
- DurableImport.ImportTail: the snapshot is an arbitrary function of the cursor, so the stop of the loop is shown without assuming it frozen; that the pages are the member's true ones is not.
- Collection errors and the poll time of the event archive, and its view: they do not influence cursors or records.
- Ring checks beyond numbering and start time (states, reasons, times of single transitions): only the numbering matters for gaps.
- RetentionDropped is counted without its wrap-around at 2^64.
- Liveness of detections: a conflict with a cancel request ends a run without a terminal state, so none is claimed. Deadlines, fair shares, audit records and the recommended capabilities written at the end are not part of the model; whether the recommendation offers an operation, which decides between finished and failed, is arbitrary.
- A detection write that fails with the context's own error after a skipped probe ends the run in the code; the model lets it go on, so its runs are more.
- Deployments: names, weights, prices, routes and audit intents; whether a price exists and whether routes allow a change are inputs. Detection- and variant-based resolution are other authorities and are not part of the runs of edits.
- DeploymentAuthority.Resolve: the reason of a refusal is specified only for a changed revision; of two open bindings of one rank and profile either may be chosen, as the code's sort is not stable.
- Target cache keys are pairs; in the code they are joined by a NUL byte, which identifiers do not contain.
- Session tokens and their hashes: a created session gets a hash nobody had before.
- ClientFinal: samples are reals, and a sample at Go's zero time, which the code takes for none, is treated like any other.
- HTTP handlers, TLS, queries, user interface and command line; `advisor.go`, onboarding, prices, outcomes and statistics would only add easy members.
