# Verified model of the Case coordinator, the public outbox and the staging lifecycles

This Dafny project models the hardest parts of the repository and proves what they are for:

* **The Case coordinator** (`CaseTypes`, `CaseNormalize`, `CaseBriefs`, `CaseReplay`, `CaseHandle`,
  `CaseViews`, `CaseCoordinator` and the modules of results about them). A Case is an append-only, hash-chained
  journal with two implementations of the same rules: `handle` decides which events to append, and
  `replayJournal` rebuilds the state and refuses every journal it does not believe. `handle` never
  replays what it appends. `CaseReplay` models the one and `CaseHandle` the other, as functions of the
  journal; `CaseCoordinator` is the object that runs them in place and is proved equal to them.
  Both, and the normalisers and the projection, are then said in terms of the journal alone: `CaseRecords`
  (the state), `CasePermitted` and `CaseBelief` (what a replay believes), `CaseRecording` and
  `CaseAcceptance` (what `handle` records and accepts), `CaseHeard` (the normal forms), `CaseBriefText` (the
  brief), `CaseShown` (what is shown).
* **The public outbox** (`Json`, `JsonRoundTrip`, `JsonShortest`, `CaseReceipt`, `ReceiptIntegrity`,
  `OutboxWire`, `OutboxRoundTrip`, `OutboxIntegrity`, `BindingProjection`, `OutboxProjector`, `OutboxSharing`,
  `OutboxRefinement`, `RecoveryEvidence`, `RecoveryFacts`, `RecoveryBuilds`, `RecoveryExact`). A durable
  log is paged, checked, projected into two indexes, printed canonically and summarised as evidence.
* **The staging lifecycles** (`RuntimeLifecycle`, `ListenerHistory`, `ProcessLifecycle`, `ProcessHistory`,
  `ControlRuntime`): start, close, bind and release as a transition system with one step a synchronous
  turn. The classes have one method a turn. Every result is about every sequence of turns.
* **Smaller pieces**: walks over arbitrary object graphs (`HeapWalks`, `HeapFacts`, `HeapAcyclic`,
  `HeapTrees`), the live and the recorded form of adoption evidence (`AdoptionEvidence`,
  `AdoptionFacts`), the Case it founds (`CaseAdoption`), Case ids (`CaseId`).

Operations that the program runs in place are classes or loops; each is proved equal to a function, and
the results are lemmas about the functions. `dafny verify dfyconfig.toml` checks everything.

## What came out

* **The two implementations agree, with one exact condition.** The intake normalises the discussion
  before it records it. The topic and adoption admissions record the discussion as their verifier gives
  it (`src/civic-case-coordinator.ts:3235-3262`), while the replay normalises it again
  (`src/civic-case-coordinator.ts:2007`) and refuses texts with a marker word such as "token" or
  "wallet". So an admission whose citizen text is not its own normal form is accepted, and from then on
  every command fails and a durable journal cannot be opened again. `CaseRuns.RunReplays` has the
  condition in both directions for every run. `CaseCitizenLane.AdoptionRuns` says what it comes to in the
  citizen lane: the citizen's text and tags decide, which can be checked before the call.
  `CaseStuck.TextDecides` carries it out in a concrete town, for every text, and
  `CaseStuck.AdoptionCanStick` for the text "@mecky no token".
* **The replay and `handle`, exactly.** `CasePermitted.ReplaysExactly` says which journals replay, event by
  event: chained, in an open lane, naming the event it replaces, and permitted to its actor by what the journal
  holds before it. `CaseRecords.ReplayRemembers` says what the state then is, looked up in the journal, latest
  entry first. `CaseRecording.HandleRecords` says that an accepted command appends exactly the events that
  record it, and `CaseAcceptance.AcceptedExactly` which commands are accepted: those of which the replay
  believes a record, with three further demands that only `handle` makes (registered agents and reviewers, one
  department where none is required, no second brief while one is current). `CaseShown.JournalIsShown` says
  what each audience sees of a journal.
* **Currency is a property of the journal.** Whether a brief, participation or outcome is current is
  recomputed from event ids and checksums; `CaseCurrency.ReplayedCurrency` shows that this is exactly
  "no department event, other brief or participation retraction since". That nothing stale comes back
  is a corollary.
* **Two checks never fire.** The bound on the number of departments
  at the end of the replay refuses nothing that the steps accepted (`CaseRuns.ReplayIffFold`), and the
  node budget of a page is never reached by 256 entries of six nodes.
* **A listener is ready exactly** if its first start was called on an unbound server that took `listen`, the
  first answer after it was the promised address, and no close was called
  (`ListenerHistory.ReadyExactly`); a process exactly if every listener in turn was and answered so
  (`ProcessHistory.ReadyByCourse`).
* **Receipts and evidence, exactly.** A receipt is verified exactly if it is a record of one of the three closed
  schemas and is sealed: its checksum is the digest of the canonical text of its other members
  (`ReceiptIntegrity.VerifiedExactly`). Recorded and live adoption evidence is accepted exactly under
  a list of conditions on its fields (`AdoptionFacts`), and recovery evidence likewise (`RecoveryExact`).
* **Shutdown ends.** Besides the safety of every interleaving, no close can wait in a circle
  (`ProcessLifecycle.CloseNeverStuck`): whatever happens, the turns that a close waits for are bounded in
  number, and where they have run out it is over (`ProcessLifecycle.CloseEnds`). On every run without end
  on which they are not put off for ever, every close comes to its end (`ProcessLifecycle.FairCloseEnds`).

## Assumptions

* SHA-256 in the coordinator is a datatype, `CaseTypes.Checksum`: a digest is its preimage, so equal
  digests have equal preimages. `Raw` stands for well-formed digests of nothing known. In the outbox a
  digest is any function on texts. That built evidence verifies assumes that it gives 64 hexadecimal
  digits (`RecoveryFacts.HexDigest`, which `RecoveryFacts.HexDigestExists` shows can be met); the results
  about aggregate checksums assume nothing and say "equal, or these two texts have one digest".
* Regular expressions for secret and private markers, references and timestamps, event signatures, the
  discussion adapter and the admission verifiers are the functions of `CaseTypes.Env`.
  `CaseAgreement.Sound` says what is assumed of them: marker patterns are unanchored, so trimming
  removes no marker; a verifier accepts its own output again; the topic verifier builds its artifact
  from the event it was given; one event id, being a hash, has one content. For citizen
  adoptions the second is proved of the verifier itself (`CaseAdoption.CitizenAdoptionsStable`).
  `CaseStuck.TownSound` shows that the assumptions can be met, with the program's pattern for secrets and
  its verifier of citizen adoptions. For synthetic adoptions and for topics they remain assumptions.
* `CaseBriefFacts.ValidOptions` is what `normalizeOptions` leaves true of the configuration
  (`src/civic-case-coordinator.ts:1147-1314`): the lanes exclude each other and required departments
  are eight distinct ids in sorted order.
* `beforeBind` does not itself call `close`: a turn is atomic.

## Model

| member | source | states |
|---|---|---|
| CaseRuns.RunReplays | src/civic-case-coordinator.ts:2971-3435 | From the empty journal, after any sequence of accepted and rejected commands, `replayJournal` accepts the journal that `handle` has built if and only if the recorded discussion is its own normal form (or nothing is recorded). |
| CaseRuns.HandleAgrees | src/civic-case-coordinator.ts:3214-3435 | One call from a journal that replays: a rejected command leaves journal, head and table unchanged; a repeated one gets the stored receipt or a conflict and changes nothing; an accepted one extends the old journal by one to three events, and the new journal replays exactly if the discussion the command brings, if any, is its own normal form. |
| CaseRecording.HandleRecords | src/civic-case-coordinator.ts:3214-3434 | Every accepted command that is not a repetition appends exactly the events that record it: chained, by its actor, with every payload field that of the normalised command, digests of what they name, the source event of a participation, and `correctionOf` naming the last draft, review or participation that is replaced; a creation appends the Case, the discussion with its suggestion, and the admission. |
| CaseAcceptance.AcceptedExactly | src/civic-case-coordinator.ts:2971-3220 | From a journal that replays a call changes something exactly if the command is good and admitted, its key is new, it expects the version of the journal, and either it may create the Case or the replay would believe an event that records it and the few further demands of `handle` hold; a known key gets its receipt or a conflict, a wrong version is named, and nothing else changes. |
| CaseAcceptance.PreparedExactly | src/civic-case-coordinator.ts:2971-3005 | What is checked before the replay passes exactly for a good command of this Case and policy by a registered actor in an open lane, with what it brings verified; it is then the command as it was heard. |
| CaseAcceptance.ConsideredExactly | src/civic-case-coordinator.ts:3006-3054 | A command is considered exactly if it is good and admitted and, for a signed suggestion, good for the recorded discussion. |
| CaseAcceptance.TagsChecked | src/civic-case-coordinator.ts:2386-2401 | The tags pass exactly if municipality, case and fixture marker stand once each with their values, and no other spelling of the scope does. |
| CaseRuns.IntakeRunsReplay | src/civic-case-coordinator.ts:2379-2421 | Runs without topic or adoption admissions always replay: the intake normalises what it records. |
| CaseCitizenLane.AdoptionRuns | src/civic-case-coordinator.ts:3235-3248 | In the citizen lane every verified adoption of the configured Case that a registered steward sends, ids and key being free of markers, is accepted with three events. Its journal replays exactly if the citizen's text and tags are clean, and is stuck exactly if they are not: no sequence of commands changes it and every command fails. |
| CaseCitizenLane.ContentDecides | src/civic-case-coordinator.ts:1070-1131 | The discussion that the verifier builds from a root event is its own normal form exactly if the text is trimmed and neither it nor a tag holds a secret. |
| CaseCitizenLane.UnverifiedRefused | src/civic-case-coordinator.ts:3002-3005 | Evidence that does not verify is refused, whatever the command and the journal, and nothing changes. |
| CaseStuck.TextDecides | src/civic-case-coordinator.ts:3235-3248 | In a concrete town with the program's own citizen verifier and pattern for secrets, for every text of the root event: the adoption is accepted exactly if the text is as the evidence verifier demands, and then its Case replays exactly if the text holds no marker and is stuck exactly if it holds one. |
| CaseStuck.AdoptionCanStick | src/civic-case-coordinator.ts:3235-3248 | So the adoption of "@mecky no token" in that town, with evidence that the recorded verifier accepts, is accepted, its journal does not replay, and no command can continue it. |
| CaseStuck.TownEvidenceVerifies | src/citizen-adoption-evidence.ts:420-436 | There is evidence that the recorded verifier accepts, for every text that it demands of the root event. |
| CaseStuck.TownSound | src/civic-case-coordinator.ts:2971-3005 | All that is assumed of the environment holds of that town: the assumptions can be met. |
| CaseStuck.MarkerTrimmed | src/civic-case-coordinator.ts:947 | The pattern for secrets, unanchored and blind to case, finds nothing in a trimmed text that it does not find in the text. |
| CaseRuns.StuckStays | src/civic-case-coordinator.ts:3006-3010 | On a journal that does not replay every command fails and changes nothing. |
| CaseRuns.SingleExtends | src/civic-case-coordinator.ts:3303-3409 | Every accepted command that does not create the Case appends one event that the replay accepts, with the head it leaves. |
| CaseRuns.CreationExtends | src/civic-case-coordinator.ts:3221-3302 | A new Case replays exactly if its discussion is in normal form. |
| CaseRuns.TopicNeedsNormal | src/civic-case-coordinator.ts:2052-2101 | A topic admission that replays brought a discussion that is its own normal form. |
| CaseRuns.AdoptionNeedsNormal | src/civic-case-coordinator.ts:2102-2118 | The same for an adoption admission. |
| CaseRuns.TopicAgrees | src/civic-case-coordinator.ts:3074-3089 | The guards of a topic admission imply those of the replay of its event, given a normal discussion. |
| CaseRuns.AdoptionAgrees | src/civic-case-coordinator.ts:3090-3094 | The guards of an adoption imply those of the replay of its event, given a normal discussion. |
| CaseRuns.HeaderPasses | src/civic-case-coordinator.ts:1346-1371 | An event that `appendEvent` makes passes the chain, identity, lane and digest checks of the replay. |
| CaseRuns.ReplayIffFold | src/civic-case-coordinator.ts:2370-2374 | The last checks of the replay: the head must be the last checksum; the bound on the number of departments never refuses what the steps accepted. |
| CaseAgreement.SingleAgrees | src/civic-case-coordinator.ts:3061-3211 | For every command that does not create the Case, the guards of `handle` imply the guards of the matching replay branch. |
| CaseAgreement.AssignAgrees | src/civic-case-coordinator.ts:3095-3119 | Assigning a package: guards of `handle` imply those of the replay. |
| CaseAgreement.BriefAgrees | src/civic-case-coordinator.ts:3178-3182 | Deriving a brief: validating the bindings that were recorded in department order gives the same brief again, and all of them have source events. |
| CaseAgreement.CorrectAgrees | src/civic-case-coordinator.ts:3183-3193 | Correcting a draft: guards of `handle` imply those of the replay. |
| CaseAgreement.ParticipationAgrees | src/civic-case-coordinator.ts:3147-3162 | Recording a participation: guards of `handle` imply those of the replay. |
| CaseAgreement.OutcomeAgrees | src/civic-case-coordinator.ts:3163-3177 | Recording an outcome: guards of `handle` imply those of the replay. |
| CaseAgreement.PreparedSettled | src/civic-case-coordinator.ts:2971-3005 | What `handle` has established before it replays: normal payload, registered actor, open lane, verified admission. |
| CaseAgreement.NormalizedBodyFixed | src/civic-case-coordinator.ts:2784-2881 | Every payload that `normalizeCommand` accepts is left unchanged by the normaliser that the replay applies again. |
| CaseReachable.StepKeeps | src/civic-case-coordinator.ts:1999-2369 | Every replay step keeps the invariant: unique packages and departments, reviews of the draft beside them, a brief that covers the required departments and is current as soon as its pins hold, participation and outcome tied to their sources. |
| CasePermitted.ReplaysExactly | src/civic-case-coordinator.ts:1977-2377 | A journal is believed exactly if every event of it may follow those before it: chained, of the type of its payload, in an open lane, naming the event it replaces, and permitted. What is permitted is said of the journal: the assigned agent drafts, the assigned reviewer of that department, another person than the author, reviews the draft that is there once, stewards assign, retract, derive, withdraw and conclude, a brief says what the accepted responses of all required departments say, a participation is of the standing brief, an outcome names its three sources. |
| CasePermitted.BelievedExactly | src/civic-case-coordinator.ts:1999-2369 | The same for one event after a journal that replays. |
| CaseRecords.ReplayRemembers | src/civic-case-coordinator.ts:1961-2377 | The state of a journal that replays is what the journal says: the draft of a package is that of its last draft or correction unless retracted since, with digest, actor and event id; its review that of its last review unless corrected or retracted since; the correction state follows its last event; packages in the order of their assignment; brief with the last draft and review events before it; participation, withdrawal, outcome, discussion, suggestion title and admission as recorded. |
| CaseRecords.RecordsStand | src/civic-case-coordinator.ts:2581-2669 | The brief, participation and outcome of the state are those of the last events that made them, and are current exactly while those stand. |
| CaseBelief.BelievedRecords | src/civic-case-coordinator.ts:2021-2369 | After the first two events a replay believes, of events with normal payloads, none but those that record a command exactly as `handle` records it. |
| CaseInvariants.StepHasEffect | src/civic-case-coordinator.ts:2119-2366 | What each event type may change: an assignment appends a bare department, a department event rewrites one department with fresh event ids and only if its review was not a rejection, the others leave the departments alone. |
| CaseReachable.RewritingUnpins | src/civic-case-coordinator.ts:2589-2596 | Rewriting any department unpins the recorded brief: it carries that department, and the new event ids are new. |
| CaseCurrency.ReplayedOk | src/civic-case-coordinator.ts:1961-2377 | Every state that a replay reaches satisfies the invariant. |
| CaseCurrency.ReplayedCurrency | src/civic-case-coordinator.ts:2581-2669 | For every journal that replays and every event of it: the brief, participation or outcome of that event is current, as recomputed from ids and checksums, exactly if no later event is a department event or another brief (or, for the latter two, a participation retraction). |
| CaseCurrency.NoRevival | src/civic-case-coordinator.ts:2260-2268 | What was not current after a prefix of the journal is not current after the whole of it: the same recorded brief, participation or outcome never comes back. |
| CaseCurrency.ParticipationIsCurrentMeans | src/civic-case-coordinator.ts:2614-2633 | In a reachable state a participation is current exactly if it was not retracted and its brief event is the current brief's. |
| CaseCurrency.OutcomeIsCurrentMeans | src/civic-case-coordinator.ts:2653-2669 | In a reachable state a recorded outcome is current exactly while its participation is. |
| CaseBriefFacts.DerivedIsCurrent | src/civic-case-coordinator.ts:1867-1959 | A brief is current in the state it was derived in. |
| CaseBriefFacts.ValidatingAgain | src/civic-case-coordinator.ts:1840-1865 | Validating bindings that were validated before gives the same bindings and the same brief. |
| CaseBriefFacts.OrderingFinds | src/civic-case-coordinator.ts:1849-1864 | Validated bindings are, in order, the bindings of the required departments, each of them with an accepted current response. |
| CaseBriefFacts.OrderingSucceeds | src/civic-case-coordinator.ts:1849-1864 | Any list that holds the binding of every required department, no package twice, is accepted, whatever its order. |
| CaseBriefFacts.DerivesExactly | src/civic-case-coordinator.ts:1840-1917 | A brief can be derived exactly from the eight current bindings of the required departments, in any order, all of them accepted and none twice. |
| CaseBriefText.DerivedSays | src/civic-case-coordinator.ts:1867-1917 | A derived brief says, field by field: title and id of the suggestion, discussion, policy, one line a department, and for every required department its accepted response and a binding with its checksums and the time of its review; the bindings are the given ones in department order. |
| CaseBriefText.SummaryJoins | src/civic-case-coordinator.ts:1899 | The summary is the lines "department: summary" with a space between neighbours. |
| CasePermitted.DerivesWhatIsSaid | src/civic-case-coordinator.ts:1840-1917 | Deriving from bindings gives a brief exactly if they bind all required departments and the brief says what those say; there is only one such brief. |
| CaseBriefs.FindPackage | src/civic-case-coordinator.ts:2583-2592 | The lookup of a package finds its first department, or none. |
| CaseDepartments.NoCommandLiftsRejection | src/civic-case-coordinator.ts:3095-3146 | After a rejection no sequence of commands changes that department, derives a brief or makes an earlier one current. |
| CaseDepartments.RejectionIsFinal | src/civic-case-coordinator.ts:2168-2241 | The same for every journal that replays, whoever wrote it. |
| CaseDepartments.RejectedBlocks | src/civic-case-coordinator.ts:1840-1917 | With a rejected department no bindings validate. |
| CaseDepartments.ReviewsMatchDrafts | src/civic-case-coordinator.ts:2168-2198 | In every reachable state a present review is of the present draft's checksum, and its reviewer is not the draft's author. |
| CaseDepartments.CurrentBriefBindsAll | src/civic-case-coordinator.ts:1867-1917 | A current brief binds the eight required departments one to one with the Case's packages, all accepted, and has one response a department in sorted order. |
| CaseDepartments.ResponseResponds | src/civic-case-coordinator.ts:1876-1890 | A response carries the draft's citations sorted, each exactly once. |
| CaseViews.UnpublishedEventsUnseen | src/civic-case-coordinator.ts:2518-2543 | Recording a draft or attesting a rejection leaves the public and the council projection exactly as it was. |
| CaseViews.LooksAlike | src/civic-case-coordinator.ts:2671-2755 | Two states with no current brief whose departments look alike have equal projections: the projection looks at nothing else. |
| CaseViews.ReviewedIsShown | src/civic-case-coordinator.ts:2518-2543 | The public and the council see exactly the departments with an accepted current response, each with the summary and citations of the very draft whose checksum was reviewed. |
| CaseShown.JournalIsShown | src/civic-case-coordinator.ts:2671-2755 | What every audience is shown, of any journal that replays: discussion, suggestion and admission as recorded; packages once each in the order of department ids, to the public and the council those with an accepted response, with the recorded draft's summary and citations, to the administration all of them with draft, review and stage; a brief as recorded while it stands, and without summary and responses otherwise; a participation to the public only while it stands, to the administration with its state; an outcome while it stands; to the council the summary, eight responses and the standing participation. |
| CaseViews.CouncilCountsEight | src/civic-case-coordinator.ts:2734-2753 | The council brief is shown exactly while the brief is current, and then counts eight reviewed responses. |
| CaseLedger.TamperEvident | src/civic-case-coordinator.ts:1316-1371 | Two journals with one head that both replay are the same journal, payloads included; the genesis head is that of the empty journal only. |
| CaseLedger.HeadFixesJournal | src/civic-case-coordinator.ts:1977-1998 | The checksum of the last event fixes all events. |
| CaseLedger.Resent | src/civic-case-coordinator.ts:3055-3059 | Sending an accepted command again after any other commands gives the same receipt and changes nothing, exactly as long as the journal replays; a command with the same key and another fingerprint is refused with a conflict. |
| CaseLedger.FingerprintBinds | src/civic-case-coordinator.ts:3011-3054 | Equal fingerprints mean equal effects, and for everything but admissions the same normalised command. |
| CaseLedger.ReceiptsOfRuns | src/civic-case-coordinator.ts:3410-3434 | Every stored receipt names real consecutive events of the journal, the last of them number `caseVersion`, and the head after it. |
| CaseLedger.RunsReopen | src/civic-case-coordinator.ts:2945-2969 | The journal of a run is recovered with the head it had, exactly if its discussion is in normal form; otherwise the coordinator cannot be opened on it at all. |
| CaseLedger.DiscussionPersists | src/civic-case-coordinator.ts:2004-2020 | The recorded discussion never changes. |
| CaseOrderFree.HandleIgnoresOrder | src/civic-case-coordinator.ts:3011-3054 | Permuting brief bindings, participation options, dissent or limitations changes neither the normal form nor the fingerprint nor anything `handle` does; a command that is refused for its content is refused in any order and changes nothing. |
| CaseOrderFree.BriefIgnoresOrder | src/civic-case-coordinator.ts:1799-1814 | Brief bindings in any order have one normal form. |
| CaseOrderFree.ParticipationIgnoresOrder | src/civic-case-coordinator.ts:1489-1566 | Options, dissent and limitations in any order have one normal form. |
| CaseOrderFree.CountsExact | src/civic-case-coordinator.ts:1526-1529 | The counts pass exactly if the exact integer sum of the option counts is `totalAccepted`, although they are added in binary64. |
| CaseOrderFree.ParticipationCountsExact | src/civic-case-coordinator.ts:1526-1529 | The counts of every accepted participation add up exactly, and no more are accepted than completed. |
| Binary64.FloatSumDecidesExactSum | src/civic-case-coordinator.ts:1528-1529 | Rounded partial sums never fall back below 2^53, so comparing the rounded sum with a safe integer decides about the exact sum. |
| CaseNormalForms.ParticipationFixed | src/civic-case-coordinator.ts:1489-1566 | Normalising a participation twice changes nothing. |
| CaseNormalForms.ArtifactFixed | src/civic-case-coordinator.ts:1070-1131 | Normalising a discussion twice changes nothing. |
| CaseNormalForms.SignedSuggestionFixed | src/civic-case-coordinator.ts:1618-1727 | Normalising a signed suggestion twice against one discussion changes nothing. |
| CaseNormalForms.DraftFixed | src/civic-case-coordinator.ts:1415-1447 | Normalising a draft twice changes nothing. |
| CaseNormalForms.OutcomeFixed | src/civic-case-coordinator.ts:1729-1772 | Normalising an outcome twice changes nothing. |
| CaseNormalForms.PackageFixed | src/civic-case-coordinator.ts:1398-1413 | Normalising a package twice changes nothing. |
| CaseHeard.CommandHeard | src/civic-case-coordinator.ts:2784-2881 | A command is normalised exactly if all of it is good, and is then what was sent, trimmed and ordered: nothing is dropped, added or changed otherwise. |
| CaseHeard.ParticipationHeard | src/civic-case-coordinator.ts:1489-1566 | The same for participations: every option, every dissent, every limitation and the whole audit are kept; and exactly which are refused, by texts, limits, counts, times and references. |
| CaseHeard.DraftHeard | src/civic-case-coordinator.ts:1415-1447 | The same for drafts, citations and evidence references in their order. |
| CaseHeard.SignedHeard | src/civic-case-coordinator.ts:1618-1727 | The same for signed suggestions, with their binding to the discussion and their signature. |
| CaseHeard.OutcomeHeard | src/civic-case-coordinator.ts:1729-1772 | The same for outcomes. |
| CaseHeard.ArtifactHeard | src/civic-case-coordinator.ts:1070-1131 | The same for discussions. |
| Sorting.SortIgnoresOrder | src/civic-case-coordinator.ts:1476-1481 | Permuted lists with distinct keys sort to the same list. |
| Texts.TrimIdempotent | src/civic-case-coordinator.ts:984-988 | Trimming a trimmed text changes nothing. |
| Texts.TrimCuts | src/civic-case-coordinator.ts:984-988 | Trimming cuts off white space at both ends and nothing else. |
| CaseCoordinator.JournalState.AppendEvent | src/civic-case-coordinator.ts:1339-1371 | Appends the event that extends the chain and moves the head to its checksum. |
| CaseCoordinator.JournalState.ReplayJournal | src/civic-case-coordinator.ts:1961-2377 | The loop over the events computes the fold of the replay steps, and fails at the first event it does not believe. |
| CaseCoordinator.CivicCaseCoordinator.HandleCommand | src/civic-case-coordinator.ts:2971-3435 | The in-place `handle`: new journal, head, table and answer are those of the function `Handle` on the old ones, about which all results above are proved. |
| ProcessLifecycle.SafeOnEveryInterleaving | src/staging-case-process-lifecycle.ts:224-311 | On every interleaving of calls, bind results, child turns and releases: at most one release, and only after every listener has stopped; ready only while all listeners are ready with a port and no close was asked for; a close that is over, or a start that failed, has released. |
| ProcessHistory.ReadyByCourse | src/staging-case-process-lifecycle.ts:259-291 | On every interleaving the process is ready exactly if every listener in turn was let through by the guard, bound on an unbound server that took `listen` and answered with the promised address, the start went on after each, and no close was called; its ports are those of the answers. |
| ProcessHistory.PortsWereAnswered | src/staging-case-process-lifecycle.ts:239-248 | Every port came with an answer of its own listener at the promised address. |
| ProcessHistory.CloseReports | src/staging-case-process-lifecycle.ts:293-300 | A close that is over reports whether the release succeeded. |
| ProcessLifecycle.LaterTurns | src/staging-case-process-lifecycle.ts:259-311 | The phase never moves backwards in new < starting < ready < draining < failed < stopped, and after `close` was called the process is never ready again and no listener begins to bind. |
| ProcessLifecycle.TakeOk | src/staging-case-process-lifecycle.ts:259-311 | Every turn keeps the invariant of the process and of all its listeners. |
| ProcessLifecycle.CloseNeverStuck | src/staging-case-process-lifecycle.ts:293-311 | In every reachable state a close that is not over waits for a turn that can happen: `start`, `close` and the children never wait for each other in a circle. |
| ProcessLifecycle.TurnsBringTheEnd | src/staging-case-process-lifecycle.ts:233-311 | No turn puts off the end of a close and every turn it waits for brings it nearer. |
| ProcessLifecycle.CloseEnds | src/staging-case-process-lifecycle.ts:293-311 | Once a close was asked for, at most as many awaited turns can still happen as the measure says, whichever they are and whatever else happens in between; and where none of them can happen any more, the close is over, every listener has stopped and the release was called once. |
| ProcessLifecycle.FairCloseEnds | src/staging-case-process-lifecycle.ts:293-311 | On every run without end on which, while a close is not over, one of the turns it waits for happens sooner or later, a close that was asked for comes to its end: every listener has stopped and the release was called once. |
| ProcessLifecycle.FairRunExists | src/staging-case-process-lifecycle.ts:293-311 | Every run up to a close that was asked for goes on as such a run without end. |
| ProcessLifecycle.CloseCanEnd | src/staging-case-process-lifecycle.ts:293-311 | From every state in which a close was asked for, some run of turns ends it. |
| ProcessLifecycle.StagingCaseProcessLifecycle.StartProcess | src/staging-case-process-lifecycle.ts:259-291 | `start` as it runs to its first `await` is the turn of the transition system. |
| ProcessLifecycle.StagingCaseProcessLifecycle.CloseProcess | src/staging-case-process-lifecycle.ts:302-311 | `close` as it runs to its first `await` is the turn of the transition system. |
| ProcessLifecycle.StagingCaseProcessLifecycle.AfterChildStarted | src/staging-case-process-lifecycle.ts:267-281 | The turn after a child has started or failed: the next child, ready, or the failure path. |
| ProcessLifecycle.StagingCaseProcessLifecycle.AfterFailedChildStopped | src/staging-case-process-lifecycle.ts:233-237 | The failure path stops the children last first and then releases. |
| ProcessLifecycle.StagingCaseProcessLifecycle.AfterClosedChildStopped | src/staging-case-process-lifecycle.ts:293-300 | A close stops the children last first, then is stopped, then releases. |
| ProcessLifecycle.StagingCaseProcessLifecycle.ReadyPorts | src/staging-case-process-lifecycle.ts:239-248 | While ready, the port of every listener; otherwise none. |
| RuntimeLifecycle.TurnMoves | src/staging-case-runtime-lifecycle.ts:447-657 | Every turn of one listener keeps its invariant, never moves its phase backwards and binds nothing. |
| RuntimeLifecycle.CloseMoves | src/staging-case-runtime-lifecycle.ts:642-657 | `close` keeps the invariant, never moves the phase backwards and binds nothing. |
| RuntimeLifecycle.StartMoves | src/staging-case-runtime-lifecycle.ts:561-640 | `start` keeps the invariant and binds nothing once a close was asked for. |
| ListenerHistory.ListenerTells | src/staging-case-runtime-lifecycle.ts:447-657 | After any calls and turns a listener shows what its history says: not started, closed first, awaiting its answer, bound to the port of its first answer, or failed, and then rejected once the release is over. |
| ListenerHistory.ReadyExactly | src/staging-case-runtime-lifecycle.ts:561-640 | A listener is ready exactly if its first start was called on an unbound server that took `listen`, the first answer after it was the promised address, and no close was called; its port is that of this answer. |
| ListenerHistory.ConnectionsExactly | src/staging-case-runtime-lifecycle.ts:260-273 | Until a listener is stopped the connections that it tracks are exactly those that came and have not gone since. |
| ListenerHistory.StopsOnlyDrained | src/staging-case-runtime-lifecycle.ts:423-515 | A listener that was bound has stopped only if the deadline of its drain passed, or its server had closed and nothing was open at some moment after the close was asked for. |
| ListenerHistory.DrainWaits | src/staging-case-runtime-lifecycle.ts:321-335 | A drain waits only while something is open. |
| RuntimeLifecycle.CloseProgress | src/staging-case-runtime-lifecycle.ts:447-515 | A close that is not over waits for a turn that can happen. |
| RuntimeLifecycle.TurnsEnd | src/staging-case-runtime-lifecycle.ts:423-515 | Every turn that a close waits for brings its end nearer; traffic does not put it off. |
| RuntimeLifecycle.GracefulMeansDrained | src/staging-case-runtime-lifecycle.ts:321-335 | A drain becomes graceful, by any turn or by the call of `close` itself, only when no connection, request or response is open. |
| RuntimeLifecycle.StagingCaseRuntimeLifecycle.CloseServer | src/staging-case-runtime-lifecycle.ts:642-657 | `close` with the synchronous part of `finishClose` is the turn of the transition system. |
| RuntimeLifecycle.StagingCaseRuntimeLifecycle.StartServer | src/staging-case-runtime-lifecycle.ts:561-640 | `start` is the turn of the transition system. |
| RuntimeLifecycle.StagingCaseRuntimeLifecycle.OnListening | src/staging-case-runtime-lifecycle.ts:604-626 | A bind that succeeds on the promised address makes the listener ready unless a close was asked for; any other fails it. |
| RuntimeLifecycle.StagingCaseRuntimeLifecycle.RemoveConnection | src/staging-case-runtime-lifecycle.ts:260-263 | A connection that ends is forgotten, and the last one resolves a waiting drain. |
| RuntimeLifecycle.StagingCaseRuntimeLifecycle.RemoveRequest | src/staging-case-runtime-lifecycle.ts:275-284 | The same for a request. |
| RuntimeLifecycle.StagingCaseRuntimeLifecycle.RemoveResponse | src/staging-case-runtime-lifecycle.ts:286-295 | The same for a response. |
| RuntimeLifecycle.StagingCaseRuntimeLifecycle.Continue | src/staging-case-runtime-lifecycle.ts:447-515 | The turns after each `await` of start, close and release are those of the transition system. |
| ControlRuntime.SealsOnlyWhatWasReady | src/staging-case-control-runtime.ts:550-565 | On every interleaving the store is released only after every listener stopped, and exactly if a release ran that did not throw. That release seals it exactly if the state is durable and, after a recovery, some continuation of `start` before it had found the whole process ready. |
| ControlRuntime.ReadyForSealMeans | src/staging-case-control-runtime.ts:637-643 | The store may be sealed exactly if there was no recovery or some continuation of `start` found the process ready. |
| ControlRuntime.StagingCaseControlRuntime.AfterStarted | src/staging-case-control-runtime.ts:637-643 | The continuation of `start` is the turn of the transition system. |
| ControlRuntime.StagingCaseControlRuntime.Release | src/staging-case-control-runtime.ts:558-565 | The in-place release is the turn of the transition system. |
| JsonRoundTrip.ValueReadsBack | src/case-binding-outbox-wire.ts:59-68 | A printed value followed by anything that does not continue a number is read back, by the grammar of sections 2 to 7 of RFC 8259, as that value and that rest. |
| JsonRoundTrip.CanonicalInjective | src/case-binding-outbox-wire.ts:59-68 | Two values have one canonical text exactly if they have one normal form. |
| JsonRoundTrip.NormalObjects | src/case-binding-outbox-wire.ts:59-68 | Objects have one normal form exactly if they have the same members in any order, with values that have equal normal forms. |
| JsonRoundTrip.NumberReadsBack | src/case-binding-outbox-wire.ts:59-68 | A printed integer is read back. |
| JsonRoundTrip.TextReadsBack | src/case-binding-outbox-wire.ts:59-68 | A printed text with all its escapes is read back. |
| JsonShortest.CanonicalIsShortest | src/case-binding-outbox-wire.ts:59-68 | No text that is read as a value, up to the order of members, is shorter than its canonical text. |
| JsonShortest.NormalAscends | src/case-binding-outbox-wire.ts:59-68 | The canonical text has the keys of every object in strictly ascending order. |
| OutboxRoundTrip.OneTextPerPage | src/case-binding-outbox-wire.ts:134-161 | Exactly one text is accepted for every page: the canonical one with a newline, and it is what `serialize` gives. |
| OutboxRoundTrip.VerifiedPagesSurvive | src/case-binding-outbox-wire.ts:103-161 | parse(serialize(page)) = page for every page that was verified. |
| OutboxRoundTrip.SerializeInjective | src/case-binding-outbox-wire.ts:134-137 | Two pages with one text are one page. |
| OutboxRoundTrip.GoodVerifies | src/case-binding-outbox-wire.ts:103-132 | A page verifies as itself exactly if its cursor, limit and size are in bounds and its entries are verified receipts at strictly increasing sequences with distinct checksums, Cases and roots. |
| OutboxRoundTrip.EntriesGood | src/case-binding-outbox-wire.ts:84-101 | Accepted entries are verified receipts at strictly increasing sequences after the cursor, no checksum, Case or root twice. |
| OutboxIntegrity.PagesAreSealed | src/case-binding-outbox-wire.ts:84-101 | Every entry of an accepted page is sealed, and entries of two accepted pages with one checksum hold one receipt, or two named texts collide. |
| OutboxRoundTrip.ExpectationsOnlyRestrict | src/case-binding-outbox-wire.ts:111-116 | A reader with an expected cursor and limit accepts, of the texts accepted at all, exactly those that fit. |
| OutboxWire.VerifyEntries | src/case-binding-outbox-wire.ts:84-101 | The loop computes the entries, or the error of the first entry that is refused. |
| OutboxWire.StrictEntryStep | src/case-binding-outbox-wire.ts:70-82 | One entry judged with the three sets of what was seen is judged by the entries read so far, and the sets grow with it. |
| CaseReceipt.VerifiedFixed | src/case-binding-projection.ts:132-215 | A verified receipt is the given record up to key order, and verifies again unchanged. |
| ReceiptIntegrity.VerifiedExactly | src/case-binding-projection.ts:132-215 | A value is verified exactly if its normal form is a record of one of the three closed schemas, field by field, and is sealed: its checksum is "sha256:" and the digest of the canonical text of its other members. It is then that normal form, and otherwise the error says whether shape or seal is wrong. |
| ReceiptIntegrity.ReceiptIsSealed | src/case-binding-projection.ts:212 | A verified receipt is sealed. |
| ReceiptIntegrity.ChecksumFixesReceipt | src/case-binding-projection.ts:212 | Two verified receipts with one checksum are one receipt, or the texts of their seals are a collision. |
| ReceiptIntegrity.TamperedIsRefused | src/case-binding-projection.ts:212 | A receipt whose checksum was kept while anything else was changed is refused, unless those texts collide. |
| CaseReceipt.ReceiptCaseId | src/case-binding-projection.ts:160-168 | A verified receipt has version 3 and a Case id of its own schema: synthetic for the synthetic schema, municipal for the two others. |
| CaseReceipt.ReceiptIsPlain | src/case-binding-projection.ts:132-215 | A verified receipt is plain data in normal form: the closed schemas leave no room for anything else. |
| OutboxRefinement.ReconcileFollowsTheLog | src/case-binding-outbox-projector.ts:100-148 | Against an append-only log, whatever the page boundaries and however the log grows meanwhile, a reconcile fails only if a request does, and otherwise the receipts, cursor and projection are those of the log as it was at the last request. |
| OutboxRefinement.ManyReconciles | src/case-binding-outbox-projector.ts:92-157 | After any list of reconciles of one growing log, some of them failing, what is shown is exactly the log as it was at some request, and at a request of the last reconcile if that one was answered. |
| OutboxRefinement.IncrementalIsFresh | src/case-binding-outbox-projector.ts:92-157 | The state after such a list is the one that a single successful reconcile of a new projector leaves, from any source that answers with the log that is shown. |
| OutboxRefinement.HonestSourceExists | src/case-binding-outbox-projector.ts:100-123 | For any growing log and any page size there is a source that answers every request with the next entries. |
| OutboxRefinement.ReadsTheLog | src/case-binding-outbox-projector.ts:100-123 | Reading a source that tells the truth when it answers fails with one of its requests or ends behind the last entry of the log. |
| OutboxRefinement.AnySource | src/case-binding-outbox-projector.ts:127-148 | Against any source at all, what is shown is the projection of the receipts held, which only grow and never exceed 10,000. |
| OutboxIntegrity.HeldReceiptsAreSealed | src/case-binding-outbox-projector.ts:100-148 | Whatever a source answers, what a projector holds is sealed and holds no checksum twice; what is applied follows what was held, in ascending order behind the cursor. |
| OutboxSharing.SharedReconcile | src/case-binding-outbox-projector.ts:125-149 | However many callers ask while an operation is under way, its turns leave behind what one reconcile of the state it began in gives. |
| OutboxSharing.SharedIsOne | src/case-binding-outbox-projector.ts:125-149 | The same from any point of an operation under way. |
| OutboxProjector.CaseBindingOutboxProjector.ReadAllPending | src/case-binding-outbox-projector.ts:100-123 | The loop ends against any source, within the receipts that may still be held, and computes the pending entries. |
| OutboxProjector.CaseBindingOutboxProjector.ReconcileNow | src/case-binding-outbox-projector.ts:127-148 | All or nothing: a reconcile that fails leaves receipts, cursor and reader as they were. |
| OutboxProjector.CaseBindingOutboxProjector.TakeWholePage | src/case-binding-outbox-projector.ts:112-121 | The loop over a page accepts its entries one after the other, or fails with the first that is refused. |
| BindingProjection.AcceptedLists | src/case-binding-projection.ts:266-292 | A list of receipts is accepted exactly if all verify and any two are equal or differ in both Case id and root; then both indexes hold exactly these receipts; two accepted lists of the same receipts give the same reader. |
| BindingProjection.AnyOrder | src/case-binding-projection.ts:313-315 | Permuting an accepted list changes nothing. |
| BindingProjection.RecordingAgain | src/case-binding-projection.ts:272-281 | Recording a receipt again changes nothing. |
| BindingProjection.ReadersFind | src/case-binding-projection.ts:282-292 | The reader finds every receipt under its Case id and under its root. |
| BindingProjection.InMemoryCaseBindingProjection.RecordReceipt | src/case-binding-projection.ts:272-281 | Either both indexes hold the receipt, or neither has changed. |
| BindingProjection.InMemoryCaseBindingProjection.RecordInitial | src/case-binding-projection.ts:313-315 | The loop over the initial receipts records them one after the other. |
| RecoveryBuilds.CreationSucceeds | src/case-state-recovery-evidence.ts:261-318 | Creation succeeds exactly if heads and entries are accepted and match; what was built is never refused by verification. |
| RecoveryExact.CreatedExactly | src/case-state-recovery-evidence.ts:224-318 | Evidence is created exactly from good heads and a good log of the same Cases, a head of version 3 with the head checksum of its receipt, and it is then what they say, every field of it. |
| RecoveryExact.VerifiedExactly | src/case-state-recovery-evidence.ts:281-307 | Evidence is verified exactly if heads and bindings are good, are about the same Cases, and count, cursor and both checksums are what they make. |
| RecoveryExact.HeadsExactly | src/case-state-recovery-evidence.ts:136-149 | Heads are read exactly if they are at most ten thousand good ones in strictly ascending order of Case ids. |
| RecoveryExact.LogExactly | src/case-state-recovery-evidence.ts:151-178 | A log is read exactly if its receipts verify, its sequences ascend and no Case, root or checksum stands twice. |
| RecoveryFacts.VerifiedSameCases | src/case-state-recovery-evidence.ts:281-307 | Verified evidence is returned unchanged and has exactly the same Case ids in its heads and in its bindings. |
| RecoveryFacts.ChecksumsFixEvidence | src/case-state-recovery-evidence.ts:269-277 | Two pieces of verified evidence with the same two aggregate checksums are the same, or their canonical texts are a collision of the digest. |
| RecoveryFacts.HeadsChecksumBinds | src/case-state-recovery-evidence.ts:269-277 | Two lists of heads have one checksum exactly if they are equal or their two canonical texts are a collision of the digest. |
| RecoveryFacts.BindingsChecksumBinds | src/case-state-recovery-evidence.ts:269-277 | Two lists of bindings have one checksum exactly if they are equal or their two canonical texts are a collision of the digest. |
| RecoveryFacts.ReadHeads | src/case-state-recovery-evidence.ts:136-149 | Accepted heads are in strictly ascending order of their Case ids. |
| RecoveryEvidence.ParseHeads | src/case-state-recovery-evidence.ts:136-149 | The loop with a running previous id computes the list reader, errors included. |
| RecoveryEvidence.ParseOutboxEntries | src/case-state-recovery-evidence.ts:159-178 | The loop with the previous sequence and three sets computes the list reader, errors included. |
| RecoveryEvidence.ReadMeans | src/case-state-recovery-evidence.ts:136-178 | A list is read exactly if it is short enough and every item passes after the items before it. |
| AdoptionEvidence.LiveIsRecorded | src/citizen-adoption-evidence.ts:460-489 | Every result of the live verifier is accepted, unchanged, by the recorded verifier without a clock, and satisfies verifiedAt < validUntil = min(receipt expiry, observation + maximum age). |
| AdoptionEvidence.RecordedIffLive | src/citizen-adoption-evidence.ts:420-436 | The recorded verifier accepts exactly what some live verification could have given, and returns it unchanged. |
| AdoptionFacts.AcceptedExactly | src/citizen-adoption-evidence.ts:331-436 | The recorded verifier accepts exactly evidence with signed sources, a receipt that its issuer proved for this adopter, suggestion, topic and policy with its digest in id, checksum and status reference, an adoption that says so, an acceptance of it with its digest, an active status for this audience with its digest and proof, and all times in their windows. |
| AdoptionFacts.LiveExactly | src/citizen-adoption-evidence.ts:460-489 | Some live verification gives exactly the same evidence. |
| AdoptionFacts.LiveExactlyAt | src/citizen-adoption-evidence.ts:460-489 | A given live verification, with its nonce and three readings of the clock, succeeds exactly on such evidence in its own windows, and gives the longest validity. |
| CaseAdoption.CitizenAdoptionsStable | src/citizen-adoption-case-admission.ts:18-35 | The citizen verifier of the Case, built from the recorded verifier, accepts its own output again with the same result: for it `CaseAgreement.AdoptionStable` is a theorem. |
| CaseAdoption.AdmittedIffLive | src/citizen-adoption-case-admission.ts:18-35 | Evidence founds a Case exactly if some live verification could have given it and 48 bits hold the time of the adoption; the evidence is kept unchanged, and the id of the Case parses to the municipality of the policy and a UUID of that time. |
| CaseAdoption.AdmissionSays | src/citizen-adoption-case-admission.ts:7-35 | What an admission says: the signed root event is the discussion, field by field; the Case id is made of the municipality, the time and the hash of the adoption; title and key are those of the adoption. |
| AdoptionEvidence.RecordedTimes | src/citizen-adoption-evidence.ts:331-418 | The order of all times in accepted evidence, and the bounds on its validity. |
| HeapTrees.CloneSucceedsOnTrees | src/durable-case-continuation.ts:150-206 | On an arbitrary heap `clonePlainData` succeeds exactly if the input unfolds within the budgets of depth, nodes, array length and keys and every object has one place only, that is, exactly on trees; it gives the value of the input. |
| HeapFacts.CloneSucceeds | src/durable-case-continuation.ts:150-206 | The same with the objects met in the walk: no object is met twice. |
| HeapAcyclic.CheckSucceeds | src/public-knowledge.ts:117-163 | `assertPlain` passes exactly if the input unfolds within its budgets: shared objects are no obstacle. |
| HeapAcyclic.UnfoldsIffAcyclic | src/public-knowledge.ts:117-163 | A value on an arbitrary heap unfolds exactly if everything that can be walked to is plain and no walk comes back to an object. |
| HeapFacts.UnfoldsOnce | src/durable-case-continuation.ts:150-206 | A value has one unfolding at most. |
| HeapWalks.WalkState.ClonePlainData | src/durable-case-continuation.ts:150-206 | The recursive walk with its shared set and counter computes the specified copy, on any heap, and ends. |
| HeapWalks.WalkState.AssertPlain | src/public-knowledge.ts:117-163 | The recursive walk with its stack-scoped set computes the specified check, on any heap, and ends with the set it began with. |
| CaseId.DerivedUuid | src/case-id.ts:54-66 | A UUID is derived exactly for 0 <= created_at * 1000 < 2^48; it is of version 7 and variant 10 (section 5.7 of RFC 9562) and its first 48 bits are that time. |
| CaseId.UuidGroups | src/case-id.ts:54-66 | The groups of a derived UUID: time, version, and 74 bits of the hash, digit by digit. |
| CaseId.SameUuid | src/case-id.ts:54-66 | Two events have one UUID exactly if they have one time and agree in these 74 bits. |
| CaseId.LaterSortsLater | src/case-id.ts:61-65 | Later events have UUIDs that sort later as texts, whatever their entropy. |
| CaseId.PrintAndParse | src/case-id.ts:23-45 | Printer and parser of Case ids are inverse to each other, for the municipal and the synthetic form. |
| CaseId.IdsDisjoint | src/case-id.ts:11-19 | No text is both a municipal and a synthetic Case id. |

## Left out

- CaseReplay.StepPayload: fields whose only accepted value is one literal (schema versions, the authority binding "none", the visibility) are not represented, and payloads are typed by their event, so a payload of another shape is refused as a whole.
- CaseNormalize.ParticipationText: the error codes of single participation fields are one code; which field it was is not modelled. Lengths count characters where the program counts UTF-16 code units.
- Sorting.Sort: texts are ordered by Unicode scalar values; the program orders them by UTF-16 code units, which differs only between characters above U+FFFF and those from U+E000 to U+FFFF.
- CaseHandle.Handle: the journal port is the in-memory journal; the branch for a commit that another process has already made is not modelled.
- CaseReplay.StepTopic: the topic admission verifier is an opaque function under the assumptions above.
- CaseViews.BuildProjection: the discussion, the suggestion and the admission are shown as recorded; their renaming into projection records is not modelled, nor is the envelope with its checksum.
- CaseBriefs.FindPackage: the map of departments is a sequence in insertion order searched by package id, which is the map's own iteration order.
- CaseReceipt.VerifyReceipt: verification reads fields by name, so it is modelled on the record with its keys sorted; that a record has a key once is part of `Exact`.
- Json.ParseNumber: numbers with a fraction or an exponent, and minus zero, are read but have no value: no canonical text holds one, so what is accepted is the same, but a page that writes its numbers so is refused as invalid where the program says noncanonical.
- Json.ParseText: strings are sequences of Unicode scalar values; unpaired surrogates are not represented, and keys are ordered by scalar values, which for the ASCII keys of these records is the order by code units.
- OutboxWire.ParsePage: a body is a text; decoding its bytes as UTF-8 is not modelled.
- OutboxProjector.Reconcile: a source is a function of the request number and the cursor, which covers every sequence of answers.
- ProcessLifecycle.Take: the children of the process object are values in a sequence, not objects of their own; `health` apart from the ports is not modelled.
- RuntimeLifecycle.Next: the durations of timers are not modelled: a deadline may pass in any turn in which it is set. Listeners that are registered and removed on sockets are the three sets of open connections, requests and responses.
- ControlRuntime.TakeControl: building the services and the failure of the composition before the lifecycle exists are not modelled.
- AdoptionEvidence.InspectBundle: the four signed events with their tags and contents, digests and Ed25519 proofs are opaque functions that know no clock; the abort budget of the live verifier and the byte and node budgets of its snapshots are not modelled.
- HeapWalks.Clone: an object is an array, a record or neither; proxies, accessors, symbols, sparse arrays and foreign prototypes are one kind of object that both walks refuse. The copy is given as a value, not as new objects.
- CaseStuck.TownCrypto: the digests of the town are constants and its signatures one accepted text; what is the program's own there is the order of the checks, the time windows, the demands on the text of the root event (its length in characters where the program counts UTF-16 code units) and the pattern for secrets.
- CaseAdoption.VerifyCitizenAdmission: the signed root event of a bundle is read by a parameter, as are the hashes of event ids; the fields of the result that the coordinator does not read are left out.
- CaseId.DeriveCaseUuidV7: the SHA-256 of the event id is a parameter of 64 hexadecimal digits; all timestamps that are refused have one error code, as in the program.
- The synthetic adoption verifiers, the public receipt constructors and the HTTP responses of the projection: mappings that would only add easy members.
- HTTP servers and clients, credentials, file writes, the SQLite store, preflight and capability tokens.
- `civic-kernel.ts` and `city-control-plane.ts`: an earlier and simpler form of the coordinator's rules.
