# Devboule, verified

A Dafny model of the parts of the Devboule desktop app that keep state across
events, or that compute something fast that a simpler definition should agree
with, and proofs about that model:

- **The agent session controller.** Daemon frames, sends in flight and resets
  drive a transcript, the maps that find its rows again, a buffer of permission
  requests and the pairing of rejected sends with late error frames.
  `Transcripts` and `Sessions` hold every step as a function,
  `TranscriptInvariants`, `SessionRuns`, `SessionErrors`, `SessionRecords`,
  `SessionPermissions`, `SessionReset`, `SessionSends` and `SessionText` prove
  what all runs keep, and `AgentSessions` is the controller as objects whose
  methods update fields.
- **The delegation switch.** An optimistic toggle against a daemon that answers
  late (`Delegation`, `DelegationControllers`).
- **Closing and quitting.** Concurrent flows that share one flush slot, one
  nonce counter and one confirmation gate (`CloseFlow`, `CloseSafety`), and the
  flows as they run over those statics (`CloseStatics`).
- **The session registry.** A bounded cache whose pinned entries are never
  evicted (`Registry`, `RegistryStore`).
- **The markdown inline scanner.** One-pass index arrays and a bracket stack
  against first-occurrence definitions (`MarkdownInline`, `MarkdownScanner`).
- **Augur's findings.** Identity, merging, the stored ledger and partial scans
  (`FindingIds`, `Findings`, `Ledger`).
- **The style walk.** Variable resolution over possibly cyclic aliases
  (`CssVars`), and a lower bound on font sizes (`TypeFloor`).
- **Envelopes, tool groups and workspace titles** (`Envelopes`, `ToolGroups`,
  `WorkspaceTitles`).

How it is built. Where the source changes state, a method or a class does too,
and its `ensures` ties the new state to a function of the old one; the theorems
are about those functions. A run is a sequence of operations from the fresh
state, in any order: an operation whose guard fails leaves the state alone, so
statements about all runs cover every interleaving of callbacks, replies and
user actions. Integers are unbounded, text is a sequence of characters, times
and daemon replies are parameters. `dafny verify dfyconfig.toml` checks
everything.

Where the code and its comments differ, the model follows the code:

- The comment on the flush slot says that the gate keeps a second close from
  asking while one is in flight (src-tauri/src/close_flow.rs:29-31). The flush
  comes before the gate, so a second flow can take the slot:
  `CloseSafety.FlushesOverlap` is a run that comes to it,
  `CloseSafety.AnswerCanArrive` says of every run when a waiting flow can still
  report an answer, and `CloseSafety.DisplacedReportsUnknown` what it is left
  with otherwise.
- The comment on the delegation switch says that a grant needs a stored answer
  (src/lib/delegation.ts:193-196). The guard reads the optimistic value;
  `Delegation.GrantWithoutAnswer` is a run that grants without one, and
  `Delegation.GrantNeedsAnswer` says of every run when that can happen: exactly
  while no answer is stored and the newest write, a take-back in flight, is shown.
- The comment on a superseded acceptance says that the panel never shows less
  authority than is live (src/lib/delegation.ts:246-248). Replies can arrive in
  another order than the daemon applied the writes;
  `Delegation.PanelShowsLastWord` says of every run when the panel is wrong, and
  `Delegation.QuietAfterAnySettlement` when the order of settling makes it so.
- The comment on the quit entry point says that a Quit command cannot resolve to
  hiding (src-tauri/src/close_flow.rs:108-110). `dialog_answer` maps a plain Yes
  to hiding whatever the question was; `CloseSafety.HidingIsChosen` is exact,
  `CloseSafety.QuitCanHide` is such a run, and `CloseSafety.QuitNeverHides`
  proves the comment where a dialog reports only its own buttons.

## Model

| member | source | states |
|---|---|---|
| TranscriptInvariants.KeysPrintApart | src/lib/agentSession.ts:1986-1998 | Two block keys of the model print the same string only if they are equal, so keeping them apart as values loses no collision of the printed keys. |
| TranscriptInvariants.AppendTextKeeps | src/lib/agentSession.ts:1677-1723 | A fragment lands in exactly one text row of its role, known or new; every block still names a row of its role, no two blocks share a row, and each text row is still the in-order concatenation of the fragments routed to it. |
| TranscriptInvariants.ToolCallEffect | src/lib/agentSession.ts:1379-1414 | A tool call appends exactly one row when `startsNewToolRow` holds, and otherwise rewrites one row of that id in place. |
| TranscriptInvariants.ToolUpdateEffect | src/lib/agentSession.ts:1798-1864 | A tool update rewrites the newest row of its id in place, or appends exactly one row when there is none. |
| TranscriptInvariants.NewestToolRow | src/lib/agentSession.ts:1725-1796 | No row of a tool id is newer than the one `toolRows` names. |
| TranscriptInvariants.FinishKeeps | src/lib/agentSession.ts:181-234 | Stamping the end of a turn changes no text, key or block. |
| SessionRuns.RunKeepsTranscript | src/lib/agentSession.ts:1203-1528 | After every run of frames, sends, attaches, detaches, resets and disposals the transcript invariant holds: blocks, rows, tool rows and gathered text agree. |
| SessionText.RoutedIsReceived | src/lib/agentSession.ts:1203-1231 | After every run the fragments routed to blocks are exactly the text received since the history was last replaced, each once, in order of arrival and under the role of its frame; a session is disposed exactly when a disposal happened. |
| SessionText.StatusLatches | src/lib/agentSession.ts:2086-2102 | Whatever follows a run, a failed session stays failed, and a closed one is closed or failed. |
| SessionErrors.RunBalances | src/lib/agentSession.ts:754-809 | After every run, per text: frames received are those shown, paired, dropped by a reset or still held; paired frames never outnumber rejected sends of that text; at most 8 rejections wait; nothing is held when no send is in flight. |
| SessionErrors.EveryFrameAccountedFor | src/lib/agentSession.ts:1300-1320 | Without reset or disposal the frames received are exactly the error frames of the run, so each is shown, paired with a rejected send of the same text, or held. |
| SessionRecords.RejectedAreFailedSends | src/lib/agentSession.ts:722-778 | After every run the rejections counted are exactly the texts of the sends that failed while a send was in flight, so paired frames never outnumber those failures, text by text. |
| SessionRecords.ShownAreErrorRows | src/lib/agentSession.ts:1300-1320 | While the history is never replaced, every frame counted as shown is an error row of the transcript, as often as it was shown. |
| SessionPermissions.HostReceivesInOrder | src/lib/agentSession.ts:1324-1338 | Until detach, reset or disposal the host is handed permission requests in arrival order, each once; per id, exactly the first ones are missing, as many as were cancelled by a resolution while they were buffered. |
| SessionReset.CompleteResetIsFresh | src/lib/agentSession.ts:1102-1160 | With no send in flight, a reset with a complete tail leaves the rows, maps and counters a fresh session gets from the same tail. |
| SessionReset.IncompleteResetIsFreshBehindMarker | src/lib/agentSession.ts:1102-1160 | With an incomplete tail it leaves the same transcript behind one marker row, with indices and id numbers shifted by one. |
| SessionReset.ResetDuringSendDiffers | src/lib/agentSession.ts:1300-1312 | A reset while a send is in flight can differ: an error frame of the tail is held, where a fresh session shows it. |
| SessionSends.ResetDuringSendIsFreshWhen | src/lib/agentSession.ts:1102-1160 | With a send in flight a complete tail leaves the transcript a fresh session gets from it exactly when no frame of it is an agent's error; otherwise exactly as many rows are missing as it has error frames. |
| AgentSessions.FindLastUserAtMs | src/lib/agentSession.ts:181-193 | The backward loop finds the publish time of the newest user row. |
| AgentSessions.StampItems | src/lib/agentSession.ts:215-234 | The backward loop stamps the last assistant row, unless it carries a stamp. |
| AgentSessions.IndexOf | src/lib/agentSession.ts:780-788 | The first index of a text, or -1 exactly when it does not occur. |
| AgentSessions.Channel.ReceiveResolved | src/lib/agentSession.ts:1599-1604 | Before attach the earliest buffered request of the id is dropped; nothing else moves. |
| AgentSessions.Channel.DeliverPendingPermissionRequests | src/lib/agentSession.ts:1591-1597 | The host receives the buffer in order, and the buffer is empty. |
| AgentSessions.SendLedger.NoteSendRejection | src/lib/agentSession.ts:768-778 | The rejection is appended and only the newest 8 are kept. |
| AgentSessions.SendLedger.ConsumeSendRejection | src/lib/agentSession.ts:780-788 | Answers whether a rejection with that very text waits, and takes out the earliest one if so. |
| AgentSessions.AgentSession.ResolveHeldAgentErrors | src/lib/agentSession.ts:790-809 | Every held frame is settled in the order it came, and none is held. |
| AgentSessions.AgentSession.Receive | src/lib/agentSession.ts:1194-1528 | One frame leaves the session `HandleEvent` gives; a disposed controller drops it. |
| AgentSessions.AgentSession.ReplaceWithResumeTail | src/lib/agentSession.ts:1102-1160 | A reset leaves the cleared session with the tail replayed through the same frames. |
| Delegation.RunSound | src/lib/delegation.ts:102-289 | After every run, replies in any order: panel, mirrors and stored reply agree, the in-flight count is right, the panel shows the confirmed value or the newest write in flight, the guard of every read is exact, and an unovertaken read carries the daemon's value. |
| Delegation.ShownIsConfirmed | src/lib/delegation.ts:210-264 | Once the newest write has settled, in whatever order the others do, the panel shows the last confirmed value, which is the one of the reply it stores. |
| Delegation.OverlappedReadIsIgnored | src/lib/delegation.ts:144-187 | A successful read changes nothing exactly when a write was in flight at some moment of it, and otherwise shows the daemon's value. |
| Delegation.QuietPanelIsHonest | src/lib/delegation.ts:102-289 | As long as the newest write settles after all others, which may settle in any order, with lost replies and failing reads: whenever nothing is in flight the panel is unknown or shows what the daemon holds. |
| Delegation.AnySettlement | src/lib/delegation.ts:210-289 | When the decided writes settle, accepted or refused in whatever order, the panel ends on the last accepted value or on what was confirmed before; it is then unknown, right or about to be told exactly when that value is the daemon's or none, or the newest write was refused after all others. |
| Delegation.QuietAfterAnySettlement | src/lib/delegation.ts:144-289 | Once every read has been answered too, the panel is unknown or right exactly then. |
| Delegation.PanelShowsLastWord | src/lib/delegation.ts:102-289 | After every run, with clicks, lost replies and failed reads anywhere: once the newest write has settled the panel shows what was said last by an acceptance, a read no write overlapped or the loss of a re-read; it is unknown or right exactly when that is nothing or the value the daemon applied last. |
| Delegation.LateAcceptanceMisleads | src/lib/delegation.ts:258-264 | A run after which the panel says off over a daemon that grants, with nothing in flight. |
| Delegation.LateRefusalMisleads | src/lib/delegation.ts:215-280 | The same end with two refusals and no acceptance, re-read included. |
| Delegation.GrantWithoutAnswer | src/lib/delegation.ts:204-204 | A grant goes out with no answer ever stored, from a take-back in flight. |
| Delegation.GrantNeedsAnswer | src/lib/delegation.ts:189-204 | After every run: a grant would go out with no stored answer exactly when none is stored and the newest write in flight is a take-back the panel shows; and a grant goes out exactly then or on a confirmed `false` that is shown. |
| DelegationControllers.DelegationController.BeginLoad | src/lib/delegation.ts:144-146 | A read remembers the sequence and whether a write is in flight. |
| DelegationControllers.DelegationController.EndLoad | src/lib/delegation.ts:147-187 | A reply is adopted or ignored, a failure reported or made the unknown, as `ReadLanded` and `ReadFailed` say. |
| DelegationControllers.DelegationController.BeginWrite | src/lib/delegation.ts:189-209 | A write goes out exactly when the guard lets it, shown at once and numbered. |
| DelegationControllers.DelegationController.EndWrite | src/lib/delegation.ts:210-289 | An acceptance is stamped even when superseded; a refusal of the newest write falls back to the confirmed value and asks again. |
| CloseSafety.RunKeeps | src-tauri/src/close_flow.rs:42-189 | After every interleaving: nonces are unique, an answer on its way or delivered carries its channel's nonce, a channel is answered at most once, and the gate matches the flow that asks. |
| CloseSafety.OneConfirmation | src-tauri/src/close_flow.rs:142-147 | After every run the gate is shut exactly when some flow has its confirmation open, and at most one has. |
| CloseSafety.FlushReportsOwnAnswer | src-tauri/src/close_flow.rs:42-86 | What a flush reports is the unknown, or what the front end answered to the nonce of that flow's own last request; no other request carries that nonce. |
| CloseSafety.SlotSurvives | src-tauri/src/close_flow.rs:57-86 | A request leaves the slot only by an answer with its own nonce, by the end of its own flow's wait, or because another request is placed there: a stale answer never removes a live one. |
| CloseSafety.ExitIsEarned | src-tauri/src/close_flow.rs:123-189 | The app exits only after the deciding flow's own last flush was answered with nothing unsaved, and either the stored choice was to quit and no question was shown, or the last question was answered with quitting and the facts read after that answer equal those it showed. |
| CloseSafety.HidingIsChosen | src-tauri/src/close_prompt.rs:80-90 | A flow ends with the window hidden exactly when its last dialog reported Yes or the tray's label, except that a window close stored as going to the tray needs no dialog. |
| CloseSafety.QuitNeverHides | src-tauri/src/close_flow.rs:108-121 | Where every dialog reports only buttons it has, a Quit command never resolves to hiding. |
| CloseSafety.QuitCanHide | src-tauri/src/close_prompt.rs:80-90 | A Quit command whose dialog reports a plain Yes hides the window. |
| CloseSafety.DisplacedReportsUnknown | src-tauri/src/close_flow.rs:42-65 | Once another flow takes the slot, whatever happens next the displaced flow can only report the unknown. |
| CloseSafety.FlushesOverlap | src-tauri/src/close_flow.rs:42-48 | Two Quit commands reach the moment at which the second is about to take the slot from the first one's request. |
| CloseSafety.AnswerCanArrive | src-tauri/src/close_flow.rs:42-86 | After every run a waiting flow has a continuation in which it reports the front end's answer exactly when its request is in the slot, answered, or its answer on the way. |
| CloseStatics.ConfirmGate.TryBegin | src-tauri/src/close_prompt.rs:244-251 | Begins exactly when the gate was free, and leaves it shut. |
| CloseStatics.FlushSlot.ClearOwn | src-tauri/src/close_flow.rs:58-63 | Empties the slot only if it still holds the caller's nonce. |
| CloseStatics.FlushSlot.TakeFor | src-tauri/src/close_flow.rs:71-86 | Yields the sender exactly when the nonces agree, and otherwise puts the slot back. |
| CloseStatics.App.FlushUndisturbed | src-tauri/src/close_flow.rs:42-65 | A flush nothing comes between goes on with exactly what the front end answered, or with the unknown, leaves the slot empty and touches no other flow. |
| CloseStatics.App.Await | src-tauri/src/close_flow.rs:55-57 | An answer in the channel is taken even when the bound has passed, and without one the wait ends only then: the `Receive` and `GiveUp` steps of the system. |
| CloseStatics.App.EditorsFlushed | src-tauri/src/close_flow.rs:71-86 | Taking the slot, putting back what the answer is not for and keeping the sender is the `Flushed` step of the system. |
| CloseStatics.App.TryAsk | src-tauri/src/close_flow.rs:142-147 | The gate's answer decides between asking and ending, as the `TryGate` step of the system does. |
| CloseStatics.App.OnAnswer | src-tauri/src/close_flow.rs:167-188 | Freeing the gate and then mapping the button to hiding, quitting or nothing is the `AnswerDialog` step of the system. |
| Registry.RegistryIsBounded | src/lib/agentSessionRegistry.ts:63-94 | After every run a sweep is scheduled, or at most 8 entries are kept, or every entry is pinned; and `bySession` mirrors `entries`. |
| Registry.SweepEvicts | src/lib/agentSessionRegistry.ts:77-94 | A sweep removes only entries nobody needs, each viewed before every evictable one that stays, and exactly as many as the cap asks for or as can go. |
| Registry.StepKeeps | src/lib/agentSessionRegistry.ts:96-259 | Every operation that can unpin an entry ends swept or schedules a sweep, and view numbers stay distinct. |
| RegistryStore.IdleByView | src/lib/agentSessionRegistry.ts:79-89 | Lists exactly the evictable ids, oldest-viewed first. |
| RegistryStore.Store.SweepNow | src/lib/agentSessionRegistry.ts:77-94 | The sort-and-remove loop leaves the registry `Sweep` gives. |
| RegistryStore.Store.AcquireEntry | src/lib/agentSessionRegistry.ts:96-196 | A usable entry is mounted and viewed anew, a stale one replaced, a missing one created; then the registry is swept. |
| RegistryStore.Store.ReleaseEntry | src/lib/agentSessionRegistry.ts:198-209 | The last unmount schedules a sweep instead of sweeping; an entry no longer registered changes nothing. |
| RegistryStore.Store.RunMicrotask | src/lib/agentSessionRegistry.ts:63-70 | The scheduled sweep runs and is no longer scheduled. |
| RegistryStore.Store.SyncTabs | src/lib/agentSessionRegistry.ts:211-217 | Exactly the entries whose tab is open stay, then the registry is swept. |
| RegistryStore.Store.StateCallback | src/lib/agentSessionRegistry.ts:182-188 | Sweeps exactly when the session became idle. |
| RegistryStore.Store.ShowTasks | src/lib/agentSessionRegistry.ts:240-249 | Seen news unpins and sweeps. |
| RegistryStore.Store.DropRequest | src/lib/agentSessionRegistry.ts:257-259 | A dropped request unpins and sweeps; an unknown one changes nothing. |
| RegistryStore.Store.TasksCallback | src/lib/agentSessionRegistry.ts:167-181 | A settled task is news, which pins, unless the tasks are on screen. |
| RegistryStore.Store.QueueCallback | src/lib/agentSessionRegistry.ts:133-139 | Sweeps exactly when a queue ran empty. |
| RegistryStore.Store.RequestCallback | src/lib/agentSessionRegistry.ts:140-145 | A request pins its entry. |
| RegistryStore.Store.ResolvedCallback | src/lib/agentSessionRegistry.ts:146-151 | Sweeps exactly when a pending request was removed. |
| RegistryStore.Store.ResetAll | src/lib/agentSessionRegistry.ts:272-277 | Every entry is removed one by one, and view numbers start over. |
| MarkdownInline.NestedScanSeesOuterMarks | src/components/markdownInline.tsx:50-78 | Scanned on its own, the content of an emphasis has exactly the escape and code marks the outer text has there. |
| MarkdownInline.EmphasisNeverNests | src/components/markdownInline.tsx:235-239 | The scan inside an emphasis finds no strong and no em, so for every text the recursion is at most two calls deep. |
| MarkdownInline.SpansPartition | src/components/markdownInline.tsx:159-283 | The emitted spans are ordered, in bounds and partition the whole text. |
| MarkdownInline.ContentIsStarFree | src/components/markdownInline.tsx:171-185 | Between the stars of an emphasis there is no active star. |
| MarkdownScanner.ScanMarks | src/components/markdownInline.tsx:50-78 | The marking loops fill the arrays with what the reference reading says of every position. |
| MarkdownScanner.Next | src/components/markdownInline.tsx:79-89 | The backward array holds, at every position, the first active occurrence from there. |
| MarkdownScanner.NextStop | src/components/markdownInline.tsx:141-154 | The backward array holds the first stop from every position. |
| MarkdownScanner.ParenClose | src/components/markdownInline.tsx:120-139 | The one-pass stack finds for every active opening parenthesis what a depth scan from that position finds. |
| MarkdownScanner.ReadConstruct | src/components/markdownInline.tsx:159-214 | Read off the arrays, the construct at a position is the one its definition gives. |
| MarkdownScanner.Inline | src/components/markdownInline.tsx:43-283 | The scan emits exactly the spans of the reference definition, emphasis content scanned by the same method. |
| CssVars.ResolvePass | src/styles/cssText.ts:135-176 | The left-to-right pass ends for every token map, cyclic ones included, and returns the text and stuck names `Resolve` gives. |
| CssVars.StuckIsRemaining | src/styles/cssText.ts:164-176 | The references left in the result are exactly the stuck names; so nothing is stuck exactly when no var() remains. |
| CssVars.StuckIsDiagnosed | src/styles/typeFloor.ts:170-185 | Every stuck name is undefined or lies on a cycle of references, and the diagnosis says which. |
| CssVars.ResolutionIsSubstitution | src/styles/cssText.ts:180-186 | Nothing is stuck exactly when plain substitution comes to an end, and then the result is what substitution gives. |
| TypeFloor.WalkIsLowerBound | src/styles/typeFloor.ts:84-123 | The reported size never exceeds the painted one (clamp, min and max as in section 10.2 of CSS Values and Units Module Level 4), whatever unreadable arguments turn out to be, for a root at its default or larger, and for em and inherit a parent no smaller than the sheet proves. |
| TypeFloor.CandidatesAre | src/styles/typeFloor.ts:130-152 | The rules the walk consults for a parent are exactly the sized ones that cover an ancestor some part names, without those already on the way. |
| TypeFloor.ChainIsLowerBound | src/styles/typeFloor.ts:125-168 | Down a chain of nested elements, when no rule comes twice and every one above the element resolves, the report for the element is no more than it paints. |
| TypeFloor.EmIsLowerBoundWhen | src/styles/typeFloor.ts:130-160 | For any sheet, the report for an em holds under every rule that may size the parent, in every world fair to that rule, exactly when the em is nothing or no rule the walk cannot read can paint below the proved parent. |
| TypeFloor.PercentIsLowerBoundWhen | src/styles/typeFloor.ts:115-116 | The report for a percentage is a lower bound exactly when the parent is no smaller than the root's default, or the amount is nothing. |
| TypeFloor.PercentOverstates | src/styles/typeFloor.ts:115-116 | Eighty percent of a ten-pixel parent is reported as 12.8 and paints 8. |
| TypeFloor.UnreadParentOverstates | src/styles/typeFloor.ts:156-156 | A governing rule whose size is text the walk cannot read may paint nothing, so over a positive proved parent the report for a positive em does not always hold. |
| TypeFloor.SelfNestingIsLowerBoundWhen | src/styles/typeFloor.ts:138-138 | A rule that is its own ancestor, skipped as seen: nested to any depth its report holds exactly when the em does not shrink, or there is nothing to shrink. |
| TypeFloor.SelfNestingOverstates | src/styles/typeFloor.ts:138-138 | Half an em in its own kind over twenty pixels is reported as 10, and two deep it paints 5. |
| TypeFloor.EvaluateSize | src/styles/typeFloor.ts:84-123 | The evaluation ends on every sheet, even when rules are each other's ancestors, with the value `Evaluate` gives. |
| TypeFloor.FindParentSize | src/styles/typeFloor.ts:130-168 | The nested loops end with the smallest size any governing rule not yet seen resolves to. |
| FindingIds.PreimageDecodes | crates/devboule-augur/src/finding.rs:35-53 | For fields under 2^64 bytes the hashed byte strings agree exactly when path, rule, line token and evidence agree. |
| FindingIds.IdentityPolicy | crates/devboule-augur/src/finding.rs:29-77 | Two drafts are one finding exactly when path, rule up to letter case and evidence key agree, and the line too unless the rule makes it decorative. |
| FindingIds.Hasher.PutField | crates/devboule-augur/src/finding.rs:50-53 | A field is fed behind its length. |
| FindingIds.Identify | crates/devboule-augur/src/finding.rs:29-47 | The hash is fed the four fields in order. |
| Findings.CoalescePlaces | crates/devboule-augur/src/finding.rs:452-470 | The places of each id are the same before and after: nothing found is lost and nothing is added. |
| Findings.CoalesceIds | crates/devboule-augur/src/finding.rs:452-470 | Each id is named once, where it was first seen. |
| Findings.CoalesceIdempotent | crates/devboule-augur/src/finding.rs:452-470 | Coalescing twice is coalescing once. |
| Findings.CoalesceAll | crates/devboule-augur/src/finding.rs:452-470 | The table and the list of ids together give the merged list. |
| Findings.AddLocationTo | crates/devboule-augur/src/finding.rs:336-345 | A new place is added and the places sorted; a known one changes nothing. |
| Findings.SortAllSorts | crates/devboule-augur/src/finding.rs:341-344 | Sorting orders by start line, then end line. |
| Ledger.RowRoundTrip | crates/devboule-augur/src/exchange.rs:37-81 | A finding comes back from its row exactly when it has an id, a place, redacted fields and evidence as its rule redacts it. |
| Ledger.AssembledRoundTrip | crates/devboule-augur/src/finding.rs:366-393 | Whatever a detector assembles comes back from its row, when redaction is idempotent and leaves the rule's name alone. |
| Ledger.HiddenStaysHidden | crates/devboule-augur/src/finding.rs:174-179 | Hiding a hidden secret changes nothing, line count included. |
| Ledger.LevelsDistinct | crates/devboule-augur/src/exchange.rs:120-135 | A severity comes back from its level. |
| Ledger.DismissedIsNeverSeen | crates/devboule-augur/src/ledger.rs:87-123 | In every run of scans and dismissals a dismissed id never appears in `get` or `active` again. |
| Ledger.TwoScansAreOne | crates/devboule-augur/src/ledger.rs:45-85 | With disjoint ids, two scans amount to one combined scan exactly when the second spares every row the first wrote. |
| Ledger.PartialScansCommute | crates/devboule-augur/src/ledger.rs:45-85 | Detectors that report under their own names, with disjoint completed sets inside the registered list and disjoint ids: either order of two partial scans leaves what one combined scan leaves. |
| Ledger.SecondScanWipesFirst | crates/devboule-augur/src/ledger.rs:62-75 | A second scan that completes the same detector removes what the first wrote, which one combined scan would keep. |
| Ledger.LedgerStore.Record | crates/devboule-augur/src/ledger.rs:45-85 | Collecting, deleting and inserting rows in loops leaves the ledger `RecordScan` gives; a row that cannot be read is kept. |
| Ledger.LedgerStore.HideFinding | crates/devboule-augur/src/ledger.rs:87-93 | The dismissed ids grow by this one. |
| Ledger.LedgerStore.Find | crates/devboule-augur/src/ledger.rs:98-109 | A dismissed id is answered like a missing one. |
| Ledger.LedgerStore.ListActive | crates/devboule-augur/src/ledger.rs:111-123 | Lists exactly the readable rows that are not dismissed. |
| Envelopes.PrintedRelayNamesItsSender | src/lib/agentPeerMessage.ts:79-108 | For a relay printed from a well-formed header and any body whatever, the parsed sender and origin are the header's. |
| Envelopes.OriginRead | src/lib/agentPeerMessage.ts:69-77 | An origin comes back from how the daemon writes it, a device that names none included. |
| Envelopes.PrintedBodyIsVerbatim | src/lib/agentPeerMessage.ts:79-108 | A body comes back verbatim exactly when it holds no carriage return and no closing tag. |
| Envelopes.NoticeIsRelayWhen | src/lib/agentPeerMessage.ts:79-108 | A notice is taken for a relay too exactly when the pieces its header falls into at carriage returns, up to the first that is a timestamp, name a sender and no kind; its body does not matter. |
| Envelopes.NoticeOrRelay | src/lib/agentDaemonNotice.ts:213-241 | Without a carriage return before the first timestamp line no text is both a notice and a relay, whatever its body holds. |
| Envelopes.ReturnMakesBoth | src/lib/agentPeerMessage.ts:85-91 | A carriage return in a header field makes one text both, because only one of the parsers ends lines there. |
| Envelopes.FindHeaderValue | src/lib/agentPeerMessage.ts:60-67 | The loop finds the first non-empty value of a key. |
| Envelopes.ParsePeerMessage | src/lib/agentPeerMessage.ts:79-108 | Shifting and popping the line list gives the relay `ParseRelay` gives, or none. |
| ToolGroups.GroupingIsSound | src/lib/toolCallGroups.ts:45-99 | With the output of an earlier grouping at hand the result is that from scratch: the rows in order, groups of at least two rows of one parent and depth, and no two neighbours left that could have been merged. |
| ToolGroups.GroupingIsCanonical | src/lib/toolCallGroups.ts:37-44 | These rules leave one grouping only: whatever obeys them is what grouping its rows gives. |
| ToolGroups.KeysAreLevels | src/lib/toolCallGroups.ts:85-88 | The key strings of two tool rows agree exactly when parent and depth do. |
| ToolGroups.GroupRows | src/lib/toolCallGroups.ts:45-99 | The loop with a pending run and a map of earlier groups gives that grouping. |
| WorkspaceTitles.WorkspaceDisplayTitles | src/lib/workspaceTitles.ts:24-49 | With distinct ids all displayed titles are distinct, the first row of each stored title keeps it, and every other row gets the least number from two on that no stored title and no earlier row has taken. |
| WorkspaceTitles.FreeNumber | src/lib/workspaceTitles.ts:40-45 | The numbering loop ends for every set of held titles, at the first free number. |

## Left out

- RowStore, StatusLatch, Channel, SendLedger: the one controller object of the source is four objects here, one per group of fields, held by `AgentSession`, so that a method names in its frame the groups it writes.
- Rows compose as values: permission requests, notices and agent messages that become rows are cards whose text another component composes; their parsing into a card is a parameter of the frame.
- AgentSessions.AgentSession.Receive: frames that write no row of the transcript (usage, models, modes, goals, subagents, task lists, plans) are one frame that changes nothing, because their state is separate from the rows; the timers of model and mode switches are not modelled.
- Attaching: the listing of tasks requested after a successful attach is not modelled, and which tasks a snapshot settles is a parameter of its frame.
- SessionReset.CompleteResetIsFresh: tails with task snapshots are outside, because a reset keeps the list they are compared with; behind a marker, tails with resets inside are outside as well.
- Delegation: the daemon's stored source of an answer is a parameter, and one writer is assumed.
- CloseFlow: nonces do not wrap at 2^64, the wait's three seconds are a step that may come at any time, the words of the confirmation and the last request to the daemon before the exit are not modelled, and a flow whose thread cannot be spawned does not start.
- Registry: sessions are disposed only by the registry, snapshots the queue gate refuses are no operation, and listeners and permission observers are not modelled.
- MarkdownInline: file-path links in plain text, React nodes and where a link leads are not modelled; positions count characters where the source counts UTF-16 units.
- FindingIds: the hash is the byte string it is fed, path normalisation and the folding of excerpts are given, and the ruleset's own rules are a predicate.
- Ledger: rows are records, not JSON text, tables are a map and a set, and failures of the database are not modelled.
- CssVars: values are trees of text and references, so matching parentheses, commas and trimming are not modelled, nor is a reference that splicing text would create.
- TypeFloor: selectors are reduced to the ancestors they name and cover, declarations to the size they declare; sizes are real numbers.
- TypeFloor.EvaluateSize: clamp() has three arguments and min() and max() at least one, as in a valid sheet; the source takes any number and fails on none.
- SessionSends.ResetDuringSendIsFreshWhen: tails with resets inside are outside, because an incomplete one numbers its marker from the rows before it, and so are tails with task snapshots.
- TypeFloor.ChainIsLowerBound: percentages and a topmost size that looks up further are outside, because nothing on the chain bounds them (`PercentIsLowerBoundWhen` is exact for percentages); a rule that comes twice and one that does not resolve are outside because the report then overstates (`SelfNestingIsLowerBoundWhen`, `EmIsLowerBoundWhen`).
- Envelopes: the body of a notice (summary, artifacts, child names) is not parsed further than the gate; characters stand for UTF-16 units.
- ToolGroups: a row stands for its identity, a spawn depth is a natural number, and the summary is a given function of the rows.
- WorkspaceTitles: the validation of a stored title is not modelled.
- Everything that only draws or forwards: React components, IPC wrappers, tray, toasts, browser views and settings files.
