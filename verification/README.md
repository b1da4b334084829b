# Conversation flows, browser sessions and their workers, verified

This project models the parts of the JRC broker that decide something by rule and proves what those rules guarantee.

**The flow language.** A flow is a graph of blocks that answers the messages of a contact. Two static checkers accept or
refuse graphs (`FlowValidator`, `AutomationValidator`), one interpreter runs them (`FlowExecutor`), and a comparison lists
the changes between two versions (`GraphDiff`). The searches are recursive methods of an object with the source's mutable
sets (`GraphSearch.Search`), proved against reachability and cycles of the graph. The interpreter dereferences many
lookups without a check; here such a lookup yields `Crashed`, and the main theorem is that a validated flow never gets
there, on any message, whatever state was saved. A second, loop-free reading of a run (`FlowReplay`) is proved equivalent
to the interpreter in both directions. What conditions, menus, names and placeholders mean is stated over the texts alone
(`FlowTexts`, `Placeholders`, `TextLaws`). Tables of rules with places and literal messages say what both validators and
the comparison report, and in which order (`FlowComplaints`, `AutomationComplaints`, `DiffOrder`).

**Two session protocols.** The single-page client (`SessionProtocol`, `ApiClient`) and the embedded client
(`EmbedProtocol`, `EmbedSessionClient`) are state machines whose steps are the stretches of code between two `await`s.
Responses, bodies, timers and continuations are events that may come in any order and with any content. The clients are
classes with the source's fields; every method is proved to do what the protocol's function of the same step does. On
the protocols, `SessionSafety` and `EmbedSafety` prove what every sequence of events keeps, `SessionFacts` and
`EmbedFacts` say exactly what each event does to what callers and users see, `SessionDeeds` and `EmbedRequests` which
requests it sends and how calls end, and `SessionProgress` and `EmbedProgress` that nothing gets stuck.

**Parsers and arithmetic.** The MP4 box scanner against serialized box trees, the CSV reader against a grammar of its
texts and against the CSV writer, the JSON check on heaps that may share or cycle, the CPF/CNPJ check digits, the axis
fitting of imported layouts, and the price of a model call.

**Worker loops.** The paged scan of organizations, its division among shards, and the two-consumer rounds of the partner
event worker.

## What the theorems found

- The cycle checks look only at cycles that listed blocks lead to. With an edge between unknown blocks they can miss one
  (`GraphSearch.DanglingCycleGoesUnnoticed`); with existing endpoints they are exact.
- A valid flow may have 150 blocks, and a message may visit 100. The limit is met only where more than 100 different
  blocks lie on a trail from where the message enters (`FlowSafety.ValidatedFlowNeverCrashes`); for chains it is met
  exactly beyond 100 blocks (`TurnLimitChain.ChainAnswersIffShort`).
- Validation does not look at the variable of a menu, and lets an input use the name `message`. A reply reaches the next
  message exactly when its name is safe and is not `message` (`ReplyMemory.ReplySurvivesIff`); three well-formed flows
  that forget a reply are given (`ReplyMemory.RepliesAreForgotten`).
- A failed restore expires the token held when its waiter goes on, even one published meanwhile. It is spared exactly if
  the waiter is a request of an earlier generation; a waiting switch never spares it, purge or not
  (`SessionTraps.HeldTokenIsSparedIff`, with runs in `FailedRestoreExpiresNewerToken` and `FailedRestoreExpiresAcrossAPurge`).
- A session selection is not bound to a generation, and publishes its token even while a logout waits
  (`SessionTraps.SelectLandsDuringLogout`). While none has published since the logout began, nothing else can
  (`SessionFacts.OnlySelectionsDisturbLogout`); after that, a restore or switch that begins later can publish too
  (`SessionFacts.LogoutPublishers`, with a run in `SessionTraps.RestoreLandsDuringDisturbedLogout`).
- No call of the session client hangs: pending promises can always move on, and once callers stop, all of them settle
  (`SessionProgress`). An embedded session that is under way always has one thread of control, never none or two
  (`EmbedProgress.OneThreadIffUnderway`).
- `stop` takes any status. With that of a waiting or authorized session it claims a session that does not exist, until
  something recovers it; `EmbedSafety.EveryRunKeeps` says exactly when such a claim stands, and everything else is proved
  for all runs, claims included.
- A comparison of graphs prints values as text, so numbers that JSON cannot express look like `null`. The comparison is
  empty exactly when everything is written alike (`GraphDiff.NoChangesMeansSameWriting`), which can hide the difference
  between a valid and an invalid flow (`DiffTraps.EmptyDiffHidesAnInfinity`) or between two valid ones
  (`EmptyDiffHidesAQuestion`). With a valid flow on one side, the other is valid exactly if each of its blocks is
  configured (`DiffExecution.ValidTogetherIff`); and two valid flows behave alike unless a text that a run reads is such
  a number (`DiffExecution.EmptyDiffMeansSameBehaviour`).
- A CPF that differs from a valid one in a single digit can be valid too, in four cases that `CheckDigits.CpfUnnoticedIff`
  names by position, direction and the remainders of the original; `CheckDigits.CnpjUnnoticedIff` does so for a CNPJ.
- An exported list of names is guarded against formulas and trimmed when it is read back, and blank names are lost
  (`ProvisioningCsv.ExportedNamesComeBackAs`); it survives exactly under the conditions of `ProvisioningCsv.NamesRoundTripIff`.
- Fitting a layout can merge different coordinates at the far edge of the canvas; `FitAxis.MergedIff` says exactly when.
- In the first round of partner events a failed publication, or an abort right after one, costs its tenant that delivery,
  for good; nothing else does (`PartnerEvents.RunScan`).

## Model

| member | source | states |
|---|---|---|
| `FlowGraph.OptionsAreTheLegalOnes` | packages/contracts/src/flows.ts:36-43 | the options of a menu are exactly the raw entries with a number from 1 to 99 and a label of 1 to 120 characters, both trimmed; none is dropped if and only if all are legal |
| `FlowGraph.PlainTextIsKept` | packages/contracts/src/flows.ts:91-93 | text without two opening braces in a row is rendered unchanged |
| `FlowGraph.PlaceholderIsReplaced` | packages/contracts/src/flows.ts:91-93 | a placeholder becomes the value of its trimmed key, or nothing when the key is unsafe or unknown, and the rest is rendered on its own |
| `Placeholders.TextIsKept` | packages/contracts/src/flows.ts:91-93 | a text in which no placeholder stands anywhere is rendered unchanged, whatever its braces |
| `Placeholders.FirstHoleIsFilled` | packages/contracts/src/flows.ts:91-93 | the first placeholder of any text becomes its value, what stands before it is kept, and what follows is expanded on its own |
| `FlowTexts.SafeKeyIff` | packages/contracts/src/flows.ts:28 | a name is safe if and only if it has 1 to 100 letters, digits, underscores, dots and dashes, begins with a letter or underscore, and no part between dots is `__proto__`, `prototype` or `constructor` |
| `FlowTexts.OptionNumberIff` | packages/contracts/src/flows.ts:36-43 | an option number is a number from 1 to 99 in decimal without leading zeros |
| `Lookups.FirstNode` | packages/contracts/src/flows.ts:121 | a lookup returns the first block with the id, however many have it |
| `Lookups.FirstEdge` | packages/contracts/src/flows.ts:101 | of several connections from one output the first one is followed |
| `GraphSearch.Search.Walk` | packages/contracts/src/flows.ts:78 | terminates on every graph; adds only nodes reachable from the argument, the argument itself, and every successor of what it adds |
| `GraphSearch.Search.Cycles` | packages/contracts/src/flows.ts:81-87 | terminates on every graph; answers true only for a node that leads into a cycle, and otherwise leaves a finishing order in which links only point backwards |
| `GraphSearch.ReachableFrom` | packages/contracts/src/flows.ts:77-80 | the set computed is exactly the set of nodes reachable from the start |
| `GraphSearch.AnyCycle` | packages/contracts/src/flows.ts:81-88 | the answer over all blocks is true if and only if some listed block leads into a cycle that avoids waiting blocks |
| `GraphSearch.BackwardsIsAcyclic` | packages/contracts/src/flows.ts:81-87 | an order in which links only point backwards excludes every cycle from its members |
| `GraphSearch.CycleCheckIsComplete` | packages/contracts/src/flows.ts:81-88 | when every edge joins listed blocks, some listed block leads into a cycle if and only if the graph has any cycle |
| `GraphSearch.DanglingCycleGoesUnnoticed` | packages/contracts/src/flows.ts:88 | without that condition a cycle can exist that the check does not see |
| `FlowValidator.SetSizeIsDistinctness` | packages/contracts/src/flows.ts:48-50 | a list has as many distinct ids as entries if and only if no two entries agree |
| `FlowValidator.NoErrorsIsWellFormed` | packages/contracts/src/flows.ts:44-90 | the error list is empty if and only if ids are unique, there is one start, edges join existing blocks by existing ports, outputs are functional and total, settings are legal, every block is reachable, and no cycle avoids the inputs |
| `FlowValidator.ValidateFlow` | packages/contracts/src/flows.ts:44-90 | returns the messages of the source in the source's order, each text once where it first occurs; none if and only if the flow is well formed |
| `FlowComplaints.ComplaintsAreInOrder` | packages/contracts/src/flows.ts:44-90 | over a table of rules with places and literal messages, written apart from the checks: the list holds exactly the messages due, each once, in the order of the places where they are due first |
| `FlowComplaints.FirstComplaintIsDueFirst` | packages/contracts/src/flows.ts:95 | the message with which a refused flow is thrown is the one due before all others |
| `FlowValidator.CheckEdges` | packages/contracts/src/flows.ts:53-61 | the loop over edges reports repeated outputs, illegal ports and returns to the start, edge by edge |
| `FlowValidator.CheckNodes` | packages/contracts/src/flows.ts:62-76 | the loop over blocks reports unknown kinds, unconnected outputs and illegal settings, block by block |
| `FlowValidator.CheckSearches` | packages/contracts/src/flows.ts:77-88 | the two searches report unreachable blocks and cycles without an input |
| `FlowExecutor.RunLoop` | packages/contracts/src/flows.ts:119-144 | the bounded loop computes the recursive run, including both limits and every unchecked lookup |
| `FlowExecutor.ExecuteFlow` | packages/contracts/src/flows.ts:94-145 | the whole interpreter computes the specified outcome for every graph and request |
| `FlowTexts.ConditionsDecideRuns` | packages/contracts/src/flows.ts:135-142 | a run leaves a condition by `yes` if and only if it is met: `contains` when the lower-cased value is some x, the lower-cased pattern and some y in a row, `starts_with` when x is empty, `present` when some character is no space, `not_equals` and everything else by comparison |
| `FlowTexts.MessageOpens` | packages/contracts/src/flows.ts:96-99 | a message begins with exactly the safely named variables of its state or caller, cut to 4096 characters, and with itself as `message` |
| `FlowTexts.MenuSays` | packages/contracts/src/flows.ts:109-134 | a menu says its text unless empty, a line with number and label for each option, and the hint if there is one |
| `FlowSafety.AcyclicPathIsDistinct` | packages/contracts/src/flows.ts:119-144 | a path in a graph without cycles never repeats a block, which is why a run ends |
| `FlowSafety.RunIsSafe` | packages/contracts/src/flows.ts:119-144 | from any point of a trail through a sound flow: no crash; a returned trace follows connections over distinct blocks and ends where it pauses; the turn limit needs a trail from there of more than 100 different blocks, the step limit one longer than the budget left |
| `FlowSafety.ResumeIsSafe` | packages/contracts/src/flows.ts:103-118 | a reply to an input or menu of a sound flow never crashes and either repeats the menu or runs on |
| `FlowSafety.ValidatedFlowNeverCrashes` | packages/contracts/src/flows.ts:94-145 | a validated flow never looks up anything missing; it refuses to resume if and only if the saved state waits elsewhere than at an input or menu; it meets the turn or step limit only if a trail of different blocks from where the message enters is longer than the limit leaves; steps grow by the length of the trace |
| `FlowReplay.RunTellsStory` | packages/contracts/src/flows.ts:119-144 | whatever a run returns is told by a list of blocks and variables joined by connections from the port each block takes |
| `FlowReplay.StoryIsRun` | packages/contracts/src/flows.ts:119-144 | conversely every such story within the limits is what the run returns |
| `FlowReplay.FirstMessageIsItsStory` | packages/contracts/src/flows.ts:94-145 | a first message is answered with a result if and only if the flow is well formed and a story from its start explains it |
| `FlowReplay.ReplyIsItsStory` | packages/contracts/src/flows.ts:104-144 | an understood reply is stored, leaves through its own port, and is answered by the story from there |
| `FlowReplay.OtherRepliesRepeatTheMenu` | packages/contracts/src/flows.ts:109-114 | any other reply repeats the menu with a hint, in the same state and without steps |
| `Conversation.ConversationInvariant` | packages/contracts/src/flows.ts:94-145 | over any conversation the steps equal the total length of the traces, never pass 1000, and a waiting state waits at an input or menu |
| `Conversation.ConversationNeverBreaks` | packages/contracts/src/flows.ts:94-145 | the next message of any conversation is answered, or meets one of the two limits before a trail too long for it; it never finds an invalid state |
| `Conversation.FinishedIsAbsorbing` | packages/contracts/src/flows.ts:102 | after completion or handoff no message changes status, steps or visits |
| `Conversation.ValuesStayBounded` | packages/contracts/src/flows.ts:97-98 | every variable of every returned state has at most 4096 characters |
| `ReplyMemory.ReplyIsReturned` | packages/contracts/src/flows.ts:106-116 | whatever runs after a reply, the state returned holds it under the name its block gives, unless a visited block sets that variable again |
| `ReplyMemory.ReplySurvivesIff` | packages/contracts/src/flows.ts:97-116 | for every well-formed flow, capturing block, understood reply and result that does not set the variable again, the next message sees the reply if and only if the name is safe and is not `message` |
| `ReplyMemory.SampleForgets` | packages/contracts/src/flows.ts:97-116 | every capturing block with another name, in a well-formed flow, takes the reply in a conversation and forgets it |
| `ReplyMemory.RepliesAreForgotten` | packages/contracts/src/flows.ts:66-116 | three such flows: a menu under an unsafe name, a menu and an input under `message` |
| `SampleFlow.SampleIsWellFormedIff` | packages/contracts/src/flows.ts:44-90 | a four-block flow around a capturing block is well formed if and only if that block is configured and fits the schema |
| `TurnLimitChain.ChainAnswersIffShort` | packages/contracts/src/flows.ts:119-144 | a chain of n blocks is well formed for every n from 2 to 150, and hits the turn limit if and only if n exceeds 100 |
| `AutomationValidator.NoDiagnosticsIsSound` | packages/contracts/src/automations-v1.ts:40-93 | there are no diagnostics if and only if the graph has the schema's shape, holds no secret-like key and is sound for the node catalog |
| `AutomationValidator.ValidateAutomationGraph` | packages/contracts/src/automations-v1.ts:40-93 | returns the diagnostics in the source's order, with node, field and code; none if and only if the graph is sound |
| `AutomationComplaints.DiagnosticsAreInOrder` | packages/contracts/src/automations-v1.ts:40-93 | over a table of rules with places, fields and codes, written apart from the checks: the list holds exactly the diagnostics due, in the order of their places |
| `AutomationComplaints.OutputsAre` | packages/contracts/src/automation-node-definitions.ts:44-77 | the outputs of a block are those of its kind, then `exhausted` and `timeout` under exactly the named versions and settings |
| `SecretKeys.SecretIff` | packages/contracts/src/automations-v1.ts:17-33 | a secret-like key is found if and only if some path through lists and objects leads to an object that has one |
| `AutomationValidator.CheckEdges` | packages/contracts/src/automations-v1.ts:54-64 | the loop with its two mutable sets reports each repeated id, missing block, repeated output, illegal port and return to the start |
| `AutomationValidator.CheckNodes` | packages/contracts/src/automations-v1.ts:65-77 | the loop reports unknown kinds, missing markers, unconnected outputs and schema issues |
| `ValidatorAgreement.ValidatorsAgreeOnHistoricalGraphs` | packages/contracts/src/automations-v1.ts:17-93 | on graphs of the eight historical kinds without markers or secrets, one validator finds nothing if and only if the other finds nothing |
| `ValidatorAgreement.AcceptedFlowsAgree` | packages/contracts/src/automation-node-definitions.ts:44-77 | for every flow the older validator accepts, the newer one accepts it if and only if there is no secret and no block's markers add issues or unconnected ports |
| `ValidatorAgreement.FewerLinksFewerCycles` | packages/contracts/src/automations-v1.ts:82-90 | cutting the search at more waiting blocks never creates a cycle |
| `Canonical.CanonicalPrefix` | apps/web/src/automations/graph-diff.ts:3-7 | two canonical texts that continue to the same whole are the same text of the same value |
| `Canonical.CanonicalIsInjective` | apps/web/src/automations/graph-diff.ts:3-7 | finite values have the same canonical text if and only if they are equal, `undefined` included |
| `Canonical.SameTextIffWrittenAlike` | apps/web/src/automations/graph-diff.ts:3-7 | any two values, `undefined` included, have the same canonical text if and only if they are equal once non-finite numbers are read as `null` |
| `Canonical.InfinityCollides` | apps/web/src/automations/graph-diff.ts:6 | an infinite number and `null` have the same text |
| `GraphDiff.NoChangesMeansSameWriting` | apps/web/src/automations/graph-diff.ts:8-28 | for any two graphs, no change is listed if and only if every id stands for blocks written alike and for the same connection |
| `GraphDiff.NoChangesMeansSameMaps` | apps/web/src/automations/graph-diff.ts:8-28 | from a graph without numbers that JSON cannot express, the other graph is the same as a map from ids if and only if no change is listed and it has no such number either |
| `GraphDiff.CompareGraphs` | apps/web/src/automations/graph-diff.ts:8-28 | the loops list the changes in order of ids, blocks before connections; for any two graphs none if and only if every id is written alike |
| `DiffReport.ReportedIffDifferent` | apps/web/src/automations/graph-diff.ts:10-26 | for any two graphs, a change is in the list if and only if some id stands for blocks, settings or connections written differently, with that kind, field and those two values; a connection is captioned by what the newer graph calls its ends, or the older one, or their ids |
| `DiffOrder.ChangesAreInOrder` | apps/web/src/automations/graph-diff.ts:12-27 | the list holds exactly the changes due, blocks before connections and each in the order of their ids, and for one block its type, its settings in the order of their names, its label and its position |
| `DiffOrder.LastBlockCounts` | apps/web/src/automations/graph-diff.ts:13 | an id that is repeated stands for the last block that has it |
| `DiffExecution.SameMapsIffSameParts` | apps/web/src/automations/graph-diff.ts:12-20 | with unique ids, equal maps mean the same blocks and connections in any order |
| `DiffExecution.SamePartsStaySound` | packages/contracts/src/flows.ts:44-90 | reordering blocks and connections keeps a graph valid |
| `FlowReading.OtherSettingsDoNotMatter` | packages/contracts/src/flows.ts:44-140 | graphs that agree on the settings of each kind of block that flows read are valid together and answer every request alike, whatever their other settings and places are |
| `FlowReading.SkeletonSoundIff` | packages/contracts/src/flows.ts:47-90 | a graph with the same connections as a sound one, and with blocks of the same ids, kinds and outputs at the same places, is sound if and only if each of its blocks is configured |
| `FlowReading.SameRunningAnswersAlike` | packages/contracts/src/flows.ts:94-145 | graphs whose blocks agree on the texts, options and operators that a run reads answer every request alike |
| `DiffReading.RunsAlikeIff` | apps/web/src/automations/graph-diff.ts:3-20 | of two configured blocks written alike, the first with texts that JSON can express, a run cannot tell them apart if and only if those of the second can be expressed too |
| `DiffExecution.ValidTogetherIff` | apps/web/src/automations/graph-diff.ts:8-28 | if the diff is empty and the first graph is valid, the second is valid if and only if it fits the schema, its ids are unique, and each of its blocks is configured |
| `DiffExecution.EmptyDiffMeansSameBehaviour` | apps/web/src/automations/graph-diff.ts:8-28 | if the diff of two valid graphs is empty and no text that a run reads is a number that JSON cannot express, every request is answered alike, however blocks and connections are ordered |
| `DiffTraps.EmptyDiffHidesAnInfinity` | packages/contracts/src/flows.ts:68 | two different flows with an empty diff, of which the validator accepts one and refuses the other on every request |
| `DiffTraps.EmptyDiffHidesAQuestion` | packages/contracts/src/flows.ts:126-129 | two valid flows with an empty diff, of which one says nothing and the other says `Infinity` to every first message |
| `SessionSafety.StepKeeps` | apps/web/src/api/client.ts:203-660 | every step of every call keeps the invariant of the session |
| `SessionSafety.EveryRunKeeps` | apps/web/src/api/client.ts:190-660 | the invariant holds after every sequence of calls, answers, bodies and continuations |
| `SessionSafety.OneRestoreAndOneSwitchInFlight` | apps/web/src/api/client.ts:369-390 | two restores, or two switches, are never in flight at once |
| `SessionSafety.NoPathIsSentThrice` | apps/web/src/api/client.ts:392-504 | no call sends its own path more than twice |
| `SessionSafety.ListenersFireOncePerToken` | apps/web/src/api/client.ts:203-219 | expiry listeners fire at most once per published token, and not for the one still held |
| `SessionSafety.NothingLandsAcrossAPurge` | apps/web/src/api/client.ts:226-238 | no body and no restored or switched token is delivered to a call that began before the latest purge |
| `SessionDelivery.DeliveriesAreCurrent` | apps/web/src/api/client.ts:309-366 | in the very step that returns a body or publishes a restored or switched token, the generation is still the call's own and the delivery is recorded; only selections publish unbound |
| `SessionDelivery.OtherEventsDeliverNothing` | apps/web/src/api/client.ts:550-657 | beginning a call delivers nothing, and a settled call never acts again |
| `SessionSafety.LogoutKeepsTheTokenAway` | apps/web/src/api/client.ts:620-657 | while a logout runs, a token is held only if a selection has published since it began |
| `SessionFacts.OnlySelectionsDisturbLogout` | apps/web/src/api/client.ts:620-657 | in a logout not yet disturbed, a step brings a token if and only if it is the body of a selection |
| `SessionFacts.LogoutPublishers` | apps/web/src/api/client.ts:414-420 | a token that arrives while a logout runs comes from a selection, or from a restore or switch begun since, and then a selection has published since |
| `SessionFacts.TokenChangesExactly` | apps/web/src/api/client.ts:203-657 | in every run, each step publishes, expires or discards the token, and begins a generation, if and only if it is one of the listed events, and does at most one of the three |
| `SessionDeeds.EveryDeedIsDone` | apps/web/src/api/client.ts:369-660 | in every run, each event does to its call exactly what the tables say (send its path, again or first, with the token version on record; come into the listed phase; settle with the listed ending), lets exactly the listed call begin, moves queue, flight and logouts accordingly, and touches no other call |
| `SessionDeeds.RequestIsSentAgainIff` | apps/web/src/api/client.ts:405-431 | in every run, the path of a request is sent again if and only if it is current and the restore it waited for has ended well, or its first 401 found a newer token held |
| `SessionFacts.SwitchesRunInOrder` | apps/web/src/api/client.ts:584-618 | a switch that has begun finds every switch called before it settled |
| `SessionFacts.WaitersShareTheFlight` | apps/web/src/api/client.ts:369-390 | whoever waits for an unsettled restore waits for the one in flight, and after a 401 for one of its own version and generation |
| `SessionProgress.NothingMovesIffAllSettled` | apps/web/src/api/client.ts:203-660 | in every reachable state, no answer, body or continuation can change any call if and only if every promise has settled |
| `SessionProgress.StepWorks` | apps/web/src/api/client.ts:203-660 | each of them leaves all calls as they are, or uses up work, restores started on the way included |
| `SessionProgress.MovesAreBounded` | apps/web/src/api/client.ts:203-660 | once callers stop, no schedule moves calls more often than there is work left |
| `SessionProgress.CallsCanSettle` | apps/web/src/api/client.ts:203-660 | from every reachable state, answers, bodies and continuations alone can settle every promise |
| `SessionSafety.VersionIdentifiesToken` | apps/web/src/api/client.ts:203-219 | between any two moments of a run, the same version means the same token |
| `SessionTraps.SelectPublishes` | apps/web/src/api/client.ts:572-576 | a successful selection publishes its token in whatever state the session is |
| `SessionTraps.SelectLandsDuringLogout` | apps/web/src/api/client.ts:572-576 | a run in which a selection begun before a purge publishes during a logout |
| `SessionTraps.RestoreLandsDuringDisturbedLogout` | apps/web/src/api/client.ts:414-417 | a run in which, after a selection has published during a logout, a restore publishes during the same logout |
| `SessionTraps.FailedRestoreExpiresNewerToken` | apps/web/src/api/client.ts:415-424 | a run in which a failed restore expires a token published after it began |
| `SessionTraps.FailedRestoreExpiresAcrossAPurge` | apps/web/src/api/client.ts:594-605 | a run in which a switch purges while the restore is in flight, a newer token is published, and the failure expires it |
| `SessionTraps.HeldTokenIsSparedIff` | apps/web/src/api/client.ts:415-605 | in every run, whoever waits for a failed restore spares the token held if and only if it is a request of an earlier generation |
| `ApiClient.Client.Handle` | apps/web/src/api/client.ts:190-660 | whatever the event, the object does the protocol's step and keeps the invariant |
| `EmbedSafety.StepKeeps` | apps/web/src/embed/session-client.ts:24-130 | every event, whatever its caller claims, keeps the invariant or a state with nothing but a claimed status; which of the two, exactly |
| `EmbedSafety.EveryRunKeeps` | apps/web/src/embed/session-client.ts:24-130 | after every sequence of calls, answers and timers the invariant holds if and only if no claim by `stop` still stands |
| `EmbedSafety.StopIsSoundIff` | apps/web/src/embed/session-client.ts:24-28 | stopping keeps the invariant if and only if the status is neither authorized nor waiting |
| `EmbedSafety.AuthorizedMeansToken` | apps/web/src/embed/session-client.ts:57-101 | in every run a token means authorized, authorized means a token unless only claimed, and under a context the selection sits in its granted inbox |
| `EmbedSafety.BusyMeansPairing` | apps/web/src/embed/session-client.ts:116-130 | busy if and only if a pairing of the current generation and selection is outstanding, and there is at most one |
| `EmbedSafety.DisplayBelongsToSelection` | apps/web/src/embed/session-client.ts:87-115 | in every run health and action on display mean a token held, and the health is that of the selected connection |
| `EmbedSafety.ExpiryBelongsToSession` | apps/web/src/embed/session-client.ts:51-69 | in every run an expiry timer runs if and only if the session waits or is authorized and is not only claimed to, and only its own |
| `EmbedSafety.OlderAnswersChangeNothing` | apps/web/src/embed/session-client.ts:57-130 | an answer of an older generation or selection changes nothing but the list of pending calls |
| `EmbedProgress.OneThreadIffUnderway` | apps/web/src/embed/session-client.ts:24-130 | in every run, a verifier or token is held if and only if some request, continuation or armed poll of the session is alive, and never two are |
| `EmbedProgress.RunningMeansUnderway` | apps/web/src/embed/session-client.ts:24-130 | a session under way is starting, waiting or authorized; one that waits or is authorized is under way if and only if no claim by `stop` stands |
| `EmbedFacts.EveryStepFollows` | apps/web/src/embed/session-client.ts:24-130 | in every run, each event ends the session if and only if its verdict says so, leaving the context alone, a new generation and no timers; otherwise it shows exactly the status, verifier, token, account, connections, expiry (capped at 120000 and 300000), context, selection, health, action and busy mark listed for it |
| `EmbedFacts.TokensComeFromGrants` | apps/web/src/embed/session-client.ts:57-72 | a new token comes only from a grant to the running session that is in time and covers the context |
| `EmbedRequests.EveryStepAsks` | apps/web/src/embed/session-client.ts:24-130 | in every run, each event starts exactly the request and arms exactly the timers that the tables say, with their authorization and generation, and leaves the others |
| `EmbedRequests.EveryRunPolls` | apps/web/src/embed/session-client.ts:43-60 | in every run, every live poll and every exchange of the running generation carries the authorization opened last for it, as the list of events tells |
| `Lookups.ChoiceIsFirst` | apps/web/src/embed/session-client.ts:62-68 | a granted session begins with the first connection of the inbox of its context, or the first of all without one |
| `EmbedSessionClient.Client.Handle` | apps/web/src/embed/session-client.ts:24-130 | whatever the event, the object does the protocol's step and keeps the invariant |
| `Mp4Tracks.U32BytesRoundTrip` | packages/providers/src/media-upload.ts:8 | four bytes are determined by the big-endian number they spell |
| `Mp4Codes.CodesAreSpelled` | packages/providers/src/media-upload.ts:9-11 | the box and handler codes of the scan are the ASCII letters of `ftyp`, `hdlr`, `moov`, `trak`, `mdia`, `soun` and `vide` |
| `Mp4Codes.HasBrandIff` | packages/providers/src/media-upload.ts:9 | a payload has a brand if and only if one of the listed brands stands somewhere in it |
| `Mp4Tracks.Scanner.Parse` | packages/providers/src/media-upload.ts:7-14 | reads only in bounds and terminates; the loop with its shared count, brand flag and tracks computes the specified scan |
| `Mp4Tracks.FindTracks` | packages/providers/src/media-upload.ts:5-15 | returns the tracks when the scan succeeds, a brand was seen and the set is not empty |
| `Mp4Tracks.ScanReadsForest` | packages/providers/src/media-upload.ts:7-14 | scanning serialized boxes succeeds if and only if they keep within the count limit, and collects exactly what they hold |
| `Mp4Tracks.ScanAcceptsIff` | packages/providers/src/media-upload.ts:7-14 | bytes are accepted if and only if they are the serialization of well-formed boxes within the depth, size and count limits |
| `Mp4Tracks.TracksOfSerialized` | packages/providers/src/media-upload.ts:5-15 | a serialized box tree yields exactly its own handlers |
| `Mp4Tracks.TracksIff` | packages/providers/src/media-upload.ts:5-15 | a track set is returned if and only if it is that of some acceptable box tree with a brand |
| `ProvisioningCsv.TokenizeLoop` | apps/web/src/broker/import.ts:14-52 | the character loop computes the specified rows or error |
| `CsvGrammar.TextIsReadIff` | apps/web/src/broker/import.ts:14-53 | over a grammar of plain and quoted cells with any mix of line ends: a text is read as a table if and only if it is spelled like one, as exactly its cells without the blank rows, and refused with each of the three quote errors if and only if it has the form named for it |
| `CsvGrammar.FileIsReadAs` | apps/web/src/broker/import.ts:9-13 | a file over 100000 characters is refused; a byte order mark is skipped; the delimiter is a semicolon if and only if the first line holds one |
| `CsvGrammar.NamesAreImported` | apps/web/src/broker/import.ts:54-68 | the names are the trimmed cells of the only column headed `nome`, or the first objection to them |
| `CsvGrammar.GuardLaw` | apps/web/src/broker/import.ts:96-111 | a cell that begins with a formula sign behind white space is written behind an apostrophe, any other as it is, so that none is a formula |
| `ProvisioningCsv.BodyIsRead` | apps/web/src/broker/import.ts:14-52 | reading back written rows gives the guarded rows without the blank ones, unless the delimiter is taken for a semicolon and some row has several cells |
| `ProvisioningCsv.WhatIsWrittenIsRead` | apps/web/src/broker/import.ts:96-111 | the outcome of reading any written file: too large, refused because its first line holds a semicolon and some row several cells, or exactly the guarded rows |
| `ProvisioningCsv.CheckNames` | apps/web/src/broker/import.ts:59-66 | no error if and only if every name is legal and no two agree in lower case |
| `ProvisioningCsv.ParseProvisioningCsv` | apps/web/src/broker/import.ts:9-68 | the whole parser computes the specified names or error |
| `ProvisioningCsv.ExportedNamesComeBackAs` | apps/web/src/broker/import.ts:9-111 | what exporting any list of names under `nome` and importing it gives: the guarded, trimmed, non-blank names or the first objection to them |
| `ProvisioningCsv.NamesRoundTripIff` | apps/web/src/broker/import.ts:9-111 | the list comes back unchanged if and only if it has 1 to 100 legal, trimmed names, none a formula, distinct in lower case, and its file is not too large |
| `JsonHeap.Checker.JsonIssue` | packages/contracts/src/automation-data-v2.ts:13-33 | the recursion terminates on every heap, computes the specified issue, and restores its set of parents when it accepts |
| `JsonHeap.AcceptsExactlyBoundedTrees` | packages/contracts/src/automation-data-v2.ts:13-33 | a value is accepted if and only if it unfolds into a finite JSON tree of depth at most 64 |
| `JsonHeap.ObjectIsPlainIff` | packages/contracts/src/automation-data-v2.ts:17-32 | the counts of own and enumerable properties admit exactly the plain objects: an expected prototype, no symbols, no accessors or hidden properties, no holes, nothing else in a list |
| `JsonHeap.CyclesAreRejected` | packages/contracts/src/automation-data-v2.ts:17 | any value on a cycle is rejected |
| `JsonHeap.SharingIsAccepted` | packages/contracts/src/automation-data-v2.ts:20-32 | an object that holds another twice is accepted whenever the other is, one level deeper |
| `JsonHeap.UnfoldingIsUnique` | packages/contracts/src/automation-data-v2.ts:13-33 | a value unfolds into at most one tree |
| `CheckDigits.Check` | packages/contracts/src/automation-input.ts:75-81 | the nested loops accept if and only if both digits are the expected ones |
| `CheckDigits.CpfAcceptedIff` | packages/contracts/src/automation-input.ts:75-81 | with the weights written out: a CPF is accepted if and only if each check digit is below 10 and makes the weighted sum a multiple of 11, or is 0 where the sum leaves 1 |
| `CheckDigits.CnpjAcceptedIff` | packages/contracts/src/automation-input.ts:74-81 | the same for a CNPJ and its weights |
| `CheckDigits.OnePairOfDigits` | packages/contracts/src/automation-input.ts:75-81 | every base has exactly one pair of check digits |
| `CheckDigits.WrongCheckDigitIsNoticed` | packages/contracts/src/automation-input.ts:75-81 | a mistake in a check digit is always noticed |
| `CheckDigits.UnnoticedIff` | packages/contracts/src/automation-input.ts:75-81 | a wrong character goes unnoticed if and only if it is in the base and its move modulo 11, weighted, leaves both remainders of the original where their digits are |
| `CheckDigits.CpfUnnoticedIff` | packages/contracts/src/automation-input.ts:75-81 | for a CPF: the first digit moved by -1 or 1, or the sixth by 2 or -2 modulo 11, each for one pair of remainders |
| `CheckDigits.CnpjUnnoticedIff` | packages/contracts/src/automation-input.ts:74-81 | for a CNPJ: any multiple of 11 in the base, or one of two moves at index 0, 4 or 8 |
| `CheckDigits.CpfMistakeHidesAtTwoPlaces` | packages/contracts/src/automation-input.ts:75-81 | two accepted CPFs that differ in one digit differ at index 0 or 5 |
| `CheckDigits.CnpjMistakeHidesAtThreePlaces` | packages/contracts/src/automation-input.ts:74-81 | two accepted CNPJs that differ in one character, not by a multiple of 11, differ at index 0, 4 or 8 |
| `CheckDigits.MultiplesOfElevenGoUnnoticed` | packages/contracts/src/automation-input.ts:74-81 | a character of the base replaced by one a multiple of 11 away is never noticed |
| `CheckDigits.MistakesDoHide` | packages/contracts/src/automation-input.ts:75-81 | both positions of a CPF really occur |
| `FitAxis.Fit` | packages/contracts/src/flows.ts:174-185 | the loop maps every coordinate into the axis, in order, and at least the gap apart unless the later one is at the cap |
| `FitAxis.ProjectionIsProportional` | packages/contracts/src/flows.ts:174-185 | coordinates that fit are projected to their distances, and wider ones in proportion to the width of the axis |
| `FitAxis.ProjectionIsEven` | packages/contracts/src/flows.ts:174-185 | coordinates whose span overflows are projected to even distances over the axis |
| `FitAxis.FittedIsTheLongestChain` | packages/contracts/src/flows.ts:178-184 | each place is the largest of the earlier projections advanced by whole gaps, cut at the cap |
| `FitAxis.MergedIff` | packages/contracts/src/flows.ts:178-184 | neighbours are merged if and only if such a chain has reached the cap |
| `FitAxis.FittedIsLeast` | packages/contracts/src/flows.ts:178-184 | no layout that respects projections, gap and cap lies further left anywhere |
| `FitAxis.RoomyLayoutIsOnlyMoved` | packages/contracts/src/flows.ts:174-185 | whole coordinates that fit and keep the gap are only translated |
| `FitAxis.DistinctCoordinatesMayMerge` | packages/contracts/src/flows.ts:181 | two different coordinates that end at the same place |
| `AiCost.EstimateAiCost` | packages/contracts/src/automation-ai.ts:29-35 | the price in whole micros, rounded up, of the input and output tokens at the prices per million written out for each model; which error wins, and overflow if and only if that price passes the safe integers |
| `AiCost.CostIsMonotone` | packages/contracts/src/automation-ai.ts:29-35 | less usage is priced whenever more is, and costs no more |
| `AiCost.SplittingCostsAtMostOneMicroACut` | packages/contracts/src/automation-ai.ts:33 | k calls charged apart cost at least what they cost together, and at most k - 1 micros more |
| `AiCost.SplittingBoundIsMet` | packages/contracts/src/automation-ai.ts:33 | that bound is reached for every k up to a million |
| `AiCost.MaximumCoversEveryUsage` | packages/contracts/src/automation-ai.ts:36-39 | the maximum covers every usage within the input and output limits |
| `Paging.Scan` | apps/api/src/commands/automation-worker.ts:24-41 | visits in increasing order, each organization at most once and only if present; a completed scan visits everyone present throughout |
| `Paging.PageExtendsScan` | apps/api/src/commands/automation-worker.ts:33-39 | one more page keeps what the scan has covered, even as organizations come and go |
| `Paging.PageIsDense` | apps/api/src/commands/automation-worker.ts:25-35 | a page holds the next ids above the cursor without gaps |
| `Paging.KeptIffMine` | apps/api/src/commands/messaging-worker.ts:185-190 | a worker handles exactly the visits of its own shard |
| `Paging.EachOrganizationHasOneWorker` | apps/api/src/commands/messaging-worker.ts:72-80 | across all shards each organization is handled once, by one worker |
| `PartnerEvents.RowIsFresh` | apps/api/src/commands/partner-events-worker.ts:32-37 | the next row of a page is exactly the next tenant not yet claimed this round |
| `PartnerEvents.ClaimKeeps` | apps/api/src/commands/partner-events-worker.ts:37-43 | claiming it leaves one delivery missing in the first round and none in later ones |
| `PartnerEvents.Worker.Claim` | apps/api/src/commands/partner-events-worker.ts:37 | the shared index moves on by one, and two consumers never hold the same row |
| `PartnerEvents.Worker.Advance` | apps/api/src/commands/partner-events-worker.ts:35-46 | one segment of one consumer keeps the page's invariant beside any state of the other, brings the page nearer its end, and loses a delivery only when a publication of the first round fails or is cut off |
| `PartnerEvents.Worker.RunPage` | apps/api/src/commands/partner-events-worker.ts:31-47 | in any interleaving of the consumers, an unaborted page claims each of its rows once |
| `PartnerEvents.Worker.RunRound` | apps/api/src/commands/partner-events-worker.ts:29-49 | an unaborted round claims every tenant once |
| `PartnerEvents.RunScan` | apps/api/src/commands/partner-events-worker.ts:29-50 | whenever it ends, claims of two tenants differ by at most one and stay within twenty, and deliveries equal claims but for the tenants that lost one; unaborted, it ran full rounds, delivered every claim without a failed publication, and stopped early only after a round without work |

## Left out

- Schemas: the shape of a graph is modelled field by field, but the numeric bounds of positions and the size of its JSON are one predicate of the host; `Number(x)`, lower-casing and the issue lists of catalog entries outside the eight historical kinds are parameters.
- `AutomationValidator.ValidateAutomationGraph`: all schema issues are one `InvalidGraph` diagnostic; message texts are not modelled, only node, field and code.
- Secret keys: which keys look like secrets is a parameter, only their presence is computed, and the fixed keys of a graph are taken as harmless.
- Characters: strings are sequences of Unicode characters; UTF-16 units and surrogate halves are not distinguished. Locale casing and collation are functions.
- `Canonical.CanonicalPrefix`: a locale order is taken to list each set of keys in one way. A collation that ties two distinct keys (canonically equivalent spellings) leaves their insertion order in the text, so that equal objects can print differently; for such keys only the other half, equal texts mean equal values, carries over.
- `Canonical.CanonicalIsInjective`: a number is the text it prints as, so `-0` is `0`.
- Flow conversion: of the import of foreign workflows only the axis fitting is modelled; the sample flows are data.
- `FitAxis.Fit`: coordinates are exact reals; whether their span overflows is a parameter, and both branches are covered.
- Client requests: headers, cookies, CSRF tokens, login, abort signals, purge handlers and the content of bodies; a fetch answers with any status or fails, and continuations run in any order, which includes the order of the engine.
- Embedded client: key generation, digests and listeners; the clock stands still within a segment, and timers may fire at any time once armed.
- `DiffExecution.EmptyDiffMeansSameBehaviour`: valid graphs with a text, value, variable or option label that is a number JSON cannot express are excluded; for one such pair it is false (`DiffTraps.EmptyDiffHidesAQuestion`). Whether such a text ever shows depends on the paths that messages can take, and only the condition on the blocks is stated.
- Uploads: of the media checks only the MP4 scanner, whose box layout is section 4.2 of ISO/IEC 14496-12.
- `ProvisioningCsv.WhatIsWrittenIsRead`: number cells are the text they print as; the batch that creates the connections is not modelled.
- `JsonHeap.AcceptsExactlyBoundedTrees`: the byte limit of the surrounding schema and the names of object keys in the unfolded tree.
- `CheckDigits.Check`: the format expressions, the refusal of one repeated character and the other input types.
- `AiCost.MaximumCoversEveryUsage`: the content is represented by its length in bytes, and token counts by whole numbers or anything else.
- Workers: what a visit, a publication or a delivery does is left open, as are errors that end a whole run.
- `Paging.Scan`: the source's loop ends because ids are bounded; the bound is a parameter here.
- Databases, HTTP routes, configuration, and the user interface.
