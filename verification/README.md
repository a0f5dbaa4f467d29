# Verified cores of the service

A Dafny model of the parts of the service that carry state, concurrency or recursion, with
proofs of what they promise. `dafny verify dfyconfig.toml` checks all of it.

Each core keeps the form it has in the source: objects whose methods update fields are classes
with `modifies` clauses, loops are loops with invariants, and each method is proved equal to a
specification function or predicate; what the source promises is then proved about that
specification for all inputs, runs or reachable states. Concurrent cores are transition systems
whose steps are the critical sections of the code.

| File | What it models |
| --- | --- |
| `ConnectionPool.dfy` | the PostgreSQL pool: its methods, the ownership of connections, and every interleaving of threads that acquire, sleep, wake, connect and release |
| `Migrations.dfy` | the migration runner, alone and as a fleet of booting instances with crashes at every step |
| `MergePatch.dfy`, `JsonValue.dfy` | the allowlist over dotted leaf paths and the merge patch of section 2 of RFC 7396 |
| `CalendarDate.dfy` | the calendar-date validator and the string comparisons that rely on it |
| `BlockCompiler.dfy`, `TemplateParts.dfy`, `CompiledTemplates.dfy`, `TemplateInputs.dfy`, `FormTypes.dfy` | the template constructor: the pass over the blocks, which blocks it refuses, what a block contributes, what the compiled template promises, what it takes from its input, and when its form matches its schema |
| `Typst.dfy` | a lexer, an evaluator for `#let` strings and the pieces of a template |
| `Expectations.dfy`, `Directives.dfy` | the expectation files of the render gate, and their directives one by one |
| `AutonomyPolicy.dfy`, `AgentRepository.dfy`, `AgentRun.dfy` | the agent's policy, its tables, its tool registry and its run loop |
| `Money.dfy`, `AmountOracle.dfy`, `StrikeThrough.dfy` | the render gate's money printing, amount oracle and strike-through detector |
| `OneShotTokens.dfy` | single-use tokens with concurrent handlers and the reaper |
| `QueueGauge.dfy` | the queue gauges that fall back to zero |
| `PathNormaliser.dfy` | request paths as metric labels |
| `Strings.dfy`, `Sorting.dfy`, `PythonText.dfy`, `Wrappers.dfy` | shared facts |

## Where the code and its promise part

Each of these is proved, with the exact condition under which the promise holds.

- One-shot tokens. The guard period of each route equals the lifetime of its tokens, so that the guard
  should outlive the token. It does not. The verifier counts whole seconds and accepts through the whole
  second a token expires in; the table keeps finer timestamps, and a row may be reaped earlier in that
  second. A reset token signed and used a tenth into second 1000 is accepted again two tenths into second
  4600, by a handler that consumes at the very instant it verifies (`NoDelayReplays`). Verifying and
  inserting the row are also two steps, and a handler that stalls between them has its token accepted a
  second time under any guard (`StalledHandlerReplays`). With a bound on that delay every run uses a token
  at most once if and only if the guard reaches the end of its last second plus the delay
  (`GuardMustCoverLifetimeAndDelay`). On each of the three routes this holds only without delay and only
  for tokens signed on the last tick of a second (`RoutesTolerateNoDelay`); what is promised instead is one
  acceptance up to the lifetime counted from the instant of signing (`IssuedTokensAreOneShot`). A guard is
  enough for every token if and only if it is at least the lifetime, one second and the delay
  (`GuardNeedsOneMoreSecond`).
- Agent run at an approval. The description shown to the approver is computed before the request is
  inserted, outside any handler, and printing a negative amount throws. A run that stops at a call
  whose arguments hold a negative integer `amount_tiyn`, or one that wraps below zero, is never
  finished: its row stays running and nothing is asked for (`NegativeAmountStrandsTheRun` for -1).
  Every other run is finished exactly once (`FinishedOnceIffDescribable`). Given the tools, the matrix and
  the policies, no model can strand a run if and only if no call that needs approval, at a policy lookup
  some calls lead to, holds such an amount (`NoModelStrandsIff`).
- Agent budget. The loop books every model call at zero cost, so no run ever moves the sum the
  budget gate reads (`RunsDoNotSpend`).
- Compiled expectations. No guard of the compiler asks for labels an expectation file can carry: a
  label with a line break or a leading `#`, or an empty totals caption, compiles and is not read
  back (`ExpectationsComeBack`, `UncleanLabelsCompile`).
- Queue gauge. A job type named `_total` shares its label with the aggregate; the board is right if
  and only if that type was never published or all other depths are zero (`GaugesFollowTheQueues`,
  `CollisionShows`; one job under `_total` and two others in `TotalCollides`).
- Strike-through detector. It sets out to find a word some row crosses with ink on both sides, and tries
  the first such row only. A word is missed if and only if the first rule has no ink above it and a second
  rule lies below it with ink below that (`MissedIffFirstRuleIsOnTop`; a word of six rows in
  `RuleOnTopHidesRuleThrough`).
- Form and schema. A later block overwrites what the schema says of a name, but not what the form asks. A
  totals block whose amount is named `total` compiles: the form asks for money, the schema for a string
  (`TotalsNamedTotal`). Form and schema agree if and only if form fields of one name ask for one type, and
  a name a totals block takes for a string it prints is asked for as text, unless a later block asks for
  it again (`FormMatchesSchemaIff`).
- Amount oracle. The sibling check of a path looks for integers at the path with `_tiyn` appended. If
  that second path is declared itself and its strings agree, the first loop has overwritten it, and
  wrong integers beside the strings go unreported (`HiddenSibling`). The report on one fixture is exact
  unless wrong integers are hidden so (`SiblingReportIsExact`); it is exact on every fixture if and only
  if no declared path is another declared path with `_tiyn` appended (`SiblingCheckIsExactIff`).
- Verify mode. The list of pending migrations is what a boot applies if and only if no two pending
  files share a version (`VerifyModeListsWhatABootApplies`; two such files in `TwinsAreListedTwice`).

## Model

| member | source | states |
| --- | --- | --- |
| `ConnectionPool.Pool.constructor` | src/database/Database.hpp:222-243 | a new pool holds size distinct connections and size free permits |
| `ConnectionPool.Pool.TryAcquire` | src/database/Database.hpp:258-279 | passes exactly when fewer than size slots are taken; takes the front connection, or reserves a slot when none is queued; otherwise changes nothing |
| `ConnectionPool.Pool.ConnectFailed` | src/database/Database.hpp:284-289 | a failed lazy connect gives its reserved slot back |
| `ConnectionPool.Pool.Release` | src/database/Database.hpp:302-313 | the queue is the old one with an open connection at its end, unchanged if it is broken or null, and the slot is free either way |
| `ConnectionPool.PooledConnection.constructor` | src/database/Database.hpp:348 | the handle owns the connection and knows its pool |
| `ConnectionPool.PooledConnection.Move` | src/database/Database.hpp:362-364 | the new handle takes over and the old one is left with nothing to release |
| `ConnectionPool.PooledConnection.Destroy` | src/database/Database.hpp:350-357 | releases once, and only a handle that still owns a connection |
| `ConnectionPool.MovedHandleReleasesOnce` | src/database/Database.hpp:342-369 | moving a handle and destroying both releases the connection exactly once |
| `ConnectionPool.DatabaseManager.PickReplicaPool` | src/database/Database.hpp:604-609 | the primary when there is no replica, else replica number counter mod n |
| `ConnectionPool.RoundRobinIsFair` | src/database/Database.hpp:604-609 | among any n consecutive reads every replica is picked exactly once |
| `ConnectionPool.CanProceedIffPermit` | src/database/Database.hpp:258-261 | while live connections never exceed the size, the wait predicate is the same as active below pool size |
| `ConnectionPool.StepKeepsInv` | src/database/Database.hpp:255-313 | every enter, wake, resume, connect, failed connect, release and move keeps capacity, ownership and the wakeup bound |
| `ConnectionPool.ReachableInv` | src/database/Database.hpp:255-313 | so they hold in every reachable state, for any number of threads |
| `ConnectionPool.NoWakeupIsLost` | src/database/Database.hpp:255-313 | while some thread sleeps in acquire, free permits never exceed the notified threads that have not run yet |
| `ConnectionPool.FreeSlotIsOnItsWay` | src/database/Database.hpp:263-279 | a sleeper and a free permit imply a notified thread that takes a slot as soon as it runs, timed out or not |
| `ConnectionPool.SlotsAreConserved` | src/database/Database.hpp:255-313 | idle plus active never exceeds the size, active counts exactly the connecting and holding threads, and each live connection has one owner |
| `ConnectionPool.StepIsSemaphore` | src/database/Database.hpp:255-313 | the pool is a counting semaphore: a grant takes one permit, a release or failed connect returns one, nothing else moves them, and entry is granted exactly when one is free |
| `ConnectionPool.LiveChangesOnlySo` | src/database/Database.hpp:255-313 | an open connection, queued or held, survives every step but the release of a broken one, and only connecting makes a new one |
| `ConnectionPool.HealthyPoolNeverConnects` | src/database/Database.hpp:292-313 | as long as no broken connection is released, whatever the interleaving, no thread connects and the live connections stay the same |
| `ConnectionPool.ConnectionsOfTheStartSuffice` | src/database/Database.hpp:222-313 | so a pool lives on the connections opened at the start, for any number of threads |
| `ConnectionPool.FullCapacityReturns` | src/database/Database.hpp:292-313 | once no thread connects or holds, all permits are back; and with all threads idle, size of them can hold connections at once, however many connections broke |
| `Migrations.Database.ApplyInTransaction` | src/database/Migrations.hpp:226-235 | the DDL and the row are committed together, and only when the row is absent under the lock |
| `Migrations.Database.ApplyNoTransaction` | src/database/Migrations.hpp:159-182 | the same end state through two commits |
| `Migrations.Database.Initialize` | src/database/Migrations.hpp:185-248 | a lone boot applies in order exactly the first file of every unrecorded version, records every version on disk, and its two counters add up to the files |
| `Migrations.Database.ListPending` | src/database/Migrations.hpp:56-80 | exactly the files on disk whose version has no row, in order |
| `Migrations.PendingAre` | src/database/Migrations.hpp:56-80 | the verify mode lists exactly the files without a row, each once and in order |
| `Migrations.FreshAre` | src/database/Migrations.hpp:185-248 | a lone boot applies exactly the first file of every version without a row, each once and in order |
| `Migrations.VersionsAre` | src/database/Migrations.hpp:185-248 | the versions recorded after it are those of the files |
| `Migrations.VerifyModeListsWhatABootApplies` | src/database/Migrations.hpp:56-80 | the pending list equals what a boot applies if and only if no two pending files share a version |
| `Migrations.TwinsAreListedTwice` | src/database/Migrations.hpp:56-80 | two pending files of version 7: both listed, one applied |
| `Migrations.StepKeepsInv` | src/database/Migrations.hpp:159-248 | every step of every runner, crashes and restarts included, keeps the fleet invariant |
| `Migrations.ReachableInv` | src/database/Migrations.hpp:159-248 | so it holds in every reachable state, for any number of runners and any initial table |
| `Migrations.TransactionalFilesRunOnce` | src/database/Migrations.hpp:226-235 | the DDL of a transactional file is committed at most once, never for a version recorded before the fleet started, and nothing of its version is committed after it |
| `Migrations.DdlRunsAreAccountedFor` | src/database/Migrations.hpp:159-182 | a version's DDL is committed at most once plus the crashes between its DDL and its row, and exactly so once the row exists |
| `Migrations.VersionsGoUp` | src/database/Migrations.hpp:202-235 | first-time DDL and recorded rows are strictly increasing in version |
| `Migrations.FinishedMeansUpToDate` | src/database/Migrations.hpp:206-248 | a finished runner implies every version on disk is recorded and nothing is pending |
| `Migrations.LockExcludes` | src/database/Migrations.hpp:163-168 | only one runner is between lock and unlock, and what it commits, DDL or row, is of a version that has no row yet |
| `Migrations.FleetNeverDeadlocks` | src/database/Migrations.hpp:159-248 | while any runner is unfinished and up, some runner can make progress without a crash, an error or a new boot |
| `Migrations.StepsUseUpWork` | src/database/Migrations.hpp:159-248 | every such step of any runner strictly decreases a measure of at most five steps for each file and two more, for each runner |
| `Migrations.UndisturbedRunsEnd` | src/database/Migrations.hpp:159-248 | so however the runners interleave, a fleet left alone comes to rest within that many steps |
| `Migrations.RestMeansFinished` | src/database/Migrations.hpp:206-248 | and at rest every runner that is up has finished |
| `Migrations.FleetCanFinish` | src/database/Migrations.hpp:206-248 | from any reachable state, dead runners included, all others can be run to the end |
| `MergePatch.ValidateExtraAllowlist` | src/api/Validation.hpp:367-385 | the loop replies with the first offending dotted path in key order, or accepts |
| `MergePatch.Input.MergeAllowedExtra` | src/api/Validation.hpp:403-411 | accepted patches are merged, a rejected patch leaves the input untouched |
| `MergePatch.CheckDecidesLeaves` | src/api/Validation.hpp:367-385 | a patch passes if and only if the dotted form of every leaf path is allowed, empty objects and nulls being leaves |
| `MergePatch.RejectionNamesFirstLeaf` | src/api/Validation.hpp:371-382 | the reported path is the first disallowed leaf in depth-first key order |
| `MergePatch.MergeFrame` | src/api/Validation.hpp:403-411 | merging leaves every path alone that no leaf of the patch is comparable with |
| `MergePatch.DerivedValuesSurvive` | src/api/Validation.hpp:338-411 | after an accepted merge every base path neither prefix nor extension of an allowed path keeps its value, with keys that contain dots and null deletions included |
| `MergePatch.PatchLeafApplies` | src/api/Validation.hpp:409 | what a merge does at a leaf: null deletes, an empty object keeps an object, anything else replaces |
| `MergePatch.PatchObjectApplies` | src/api/Validation.hpp:409 | where the patch has an object the result has one, with the members the target has there and those of the patch, less those the patch sets to null; a target without an object there gives none |
| `MergePatch.DeletingInsideReplaces` | src/api/Validation.hpp:338-411 | an accepted patch that only deletes inside seller turns the string there into an empty object |
| `MergePatch.MergeIsIdempotent` | src/api/Validation.hpp:409 | merging the same patch again changes nothing |
| `MergePatch.AllowlistIsExact` | src/api/Validation.hpp:338-411 | a value of the base, object or scalar, survives every accepted patch if and only if no allowed path is comparable with its path |
| `MergePatch.StringsProtect` | src/api/Validation.hpp:338-385 | a path the strings of the allowlist keep off, object or scalar, is left alone by every accepted patch |
| `MergePatch.StringsAreComparablePaths` | src/api/Validation.hpp:371-382 | keeping off, read on dotted strings, is the same as no allowed path being comparable with the path, keys with dots and empty keys included |
| `MergePatch.StringsAreExact` | src/api/Validation.hpp:338-411 | a stored value, object or scalar, survives every accepted patch if and only if the allowlist's strings keep off its path |
| `CalendarDate.AcceptsExactlyTheCalendar` | src/api/Validation.hpp:207-223 | accepted strings are exactly the renderings YYYY-MM-DD of Gregorian dates, year 0000 included, by Appendix C of RFC 3339 |
| `CalendarDate.StringOrderIsTimeOrder` | src/api/Validation.hpp:207-223 | on accepted strings byte order is the order of day numbers, and equality is equality of days |
| `CalendarDate.EveryDayHasASuccessor` | src/api/Validation.hpp:207-223 | the day after an accepted date is accepted and its number is one higher, so day numbers skip nothing |
| `CalendarDate.PeriodCheckIsExact` | src/api/HrController.hpp:601-608 | the string comparison of the leave period rejects exactly the periods that end before they start |
| `BlockCompiler.IsValidField` | src/docgen/BlockCompiler.hpp:82-93 | decides the names of 1 to 64 ASCII letters, digits and underscores that do not start with a digit |
| `Typst.WriteLiteral` | src/docgen/BlockCompiler.hpp:68-77 | the loop writes the literal the lexer lemmas speak about |
| `Typst.LiteralReadsBack` | src/docgen/BlockCompiler.hpp:68-77 | a literal lexes as one string with exactly the original text, for arbitrary text |
| `Typst.EvaluatePieces` | src/docgen/BlockCompiler.hpp:146-151 | evaluating lexed text prints what its pieces print, whatever the label texts contain |
| `Typst.ReadsOfPieces` | src/docgen/BlockCompiler.hpp:208-245 | scanning text for reads of the input finds exactly the fields its pieces read |
| `Typst.LabelUsesOfPieces` | src/docgen/BlockCompiler.hpp:180 | scanning text for label names finds exactly the labels its pieces refer to |
| `BlockCompiler.Builder.EmitLabel` | src/docgen/BlockCompiler.hpp:146-151 | binds the next label name to the text in the preamble and records the label |
| `BlockCompiler.Builder.DeclareField` | src/docgen/BlockCompiler.hpp:153-167 | the property, the requirement and the form field of one input field |
| `BlockCompiler.Builder.TakeHeader` | src/docgen/BlockCompiler.hpp:175-180 | a header joins its contribution, renumbered, or is refused for an empty title |
| `BlockCompiler.Builder.TakeParagraph` | src/docgen/BlockCompiler.hpp:182-187 | the same of a text block |
| `BlockCompiler.Builder.TakeFields` | src/docgen/BlockCompiler.hpp:189-220 | the same of rows bound to catalogue variables or form fields, with the first faulty row's code |
| `BlockCompiler.Builder.TakeTable` | src/docgen/BlockCompiler.hpp:222-260 | the same of a table: header cells, widths, key cells, item schema |
| `BlockCompiler.Builder.TakeTotals` | src/docgen/BlockCompiler.hpp:262-284 | the same of a totals block and its three declared fields |
| `BlockCompiler.Builder.TakeSignatures` | src/docgen/BlockCompiler.hpp:286-301 | the same of signature lines |
| `BlockCompiler.Builder.TakeBlock` | src/docgen/BlockCompiler.hpp:169-308 | any block: its fault, or the state joined with its contribution numbered from zero and renumbered by the labels so far |
| `BlockCompiler.FaultIsFirst` | src/docgen/BlockCompiler.hpp:169-308 | the block reported is the first that is not well formed, read off its own data, with the code that data causes |
| `BlockCompiler.FaultIff` | src/docgen/BlockCompiler.hpp:169-308 | a block is refused if and only if its type, rows, columns, parties, labels, names or variables are not in order, each code exactly for the data that causes it |
| `CompiledTemplates.CompilesIff` | src/docgen/BlockCompiler.hpp:127-317 | a list compiles if and only if it has 1 to 200 blocks, each well formed, and some static text |
| `CompiledTemplates.RefusedIff` | src/docgen/BlockCompiler.hpp:127-317 | an index and code are reported if and only if they are those of the first block not well formed, or of the list as a whole |
| `CompiledTemplates.UntitledHeaderIsRefused` | src/docgen/BlockCompiler.hpp:177-178 | a header without title followed by a text is refused at index 0 |
| `BlockCompiler.Compile` | src/docgen/BlockCompiler.hpp:127-344 | every refusal with its index and code, out unchanged on refusal, and on success the source, schema, form and expectations of the joined contributions |
| `TemplateParts.JoinAssociates` | src/docgen/BlockCompiler.hpp:127-309 | joining contributions, with labels renumbered and properties overlaid from the right, is associative |
| `TemplateParts.SourcePrints` | src/docgen/BlockCompiler.hpp:146-151 | a source whose preamble binds and whose body refers to its labels in order prints them in order |
| `CompiledTemplates.BlockGood` | src/docgen/BlockCompiler.hpp:169-308 | every block without fault binds its labels in order, refers to each once in order, and declares what it reads, requires and asks for |
| `CompiledTemplates.LabelsAreTheBlocks` | src/docgen/BlockCompiler.hpp:137-151 | the recorded labels are the static texts of the blocks, block after block |
| `CompiledTemplates.CompiledPrintsTheBlocks` | src/docgen/BlockCompiler.hpp:317-332 | lexing and evaluating the whole compiled text prints exactly the texts of the blocks, in order; no label name is unbound, and s0, s1, ... occur once each, in order |
| `FormTypes.FormMatchesSchemaIff` | src/docgen/BlockCompiler.hpp:153-167 | every form field's widget collects the type the schema gives its name, if and only if no two form fields of one name differ in type and none that is no text is overwritten by a totals block's printed strings |
| `FormTypes.TotalsNamedTotal` | src/docgen/BlockCompiler.hpp:262-287 | a totals block with the field `total` compiles, asks for money and is described as a string |
| `CompiledTemplates.SchemaIsClosed` | src/docgen/BlockCompiler.hpp:153-167 | every name the compiled text reads from the input, every required name and every form field is a key of properties |
| `TemplateInputs.SourceReadsItsBlocks` | src/docgen/BlockCompiler.hpp:189-288 | the compiled source reads exactly the variables, fields, items and totals its blocks print, in the order of the blocks |
| `TemplateInputs.TableFollowsItsColumns` | src/docgen/BlockCompiler.hpp:217-248 | titles, widths and the keys an item's cells read are those of the columns, all in one order |
| `TemplateInputs.RequiredIff` | src/docgen/BlockCompiler.hpp:153-287 | a field is required if and only if some block makes it mandatory: a row unless it says otherwise, a table's items, a totals block's amount and two strings |
| `TemplateInputs.FormIsTheBlocks` | src/docgen/BlockCompiler.hpp:153-292 | the form fields are those of the blocks with their labels in both languages and their widgets, in order |
| `CompiledTemplates.CompilingIsCompositional` | src/docgen/BlockCompiler.hpp:127-309 | compiling two lists end to end equals compiling them apart and joining with renumbered labels; faults likewise |
| `CompiledTemplates.ExpectationsComeBack` | src/docgen/BlockCompiler.hpp:334-337 | the gate reads back the blocks' texts, the 18 mm margin and nothing else if and only if every text is a clean label |
| `CompiledTemplates.UncleanLabelsCompile` | src/docgen/BlockCompiler.hpp:269-272 | an empty totals caption compiles and is not a clean label |
| `BlockCompiler.ExpectedText` | src/docgen/BlockCompiler.hpp:334-337 | the loop writes each label on its line and then the margin |
| `Expectations.ReadExpectations` | scripts/check-render.py:360-415 | the labels, excused paths, defects, amounts and margin that the lines of the files declare, or death at a malformed line, a margin that is no number of millimetres, a second margin or none |
| `Directives.DirectivesRead` | scripts/check-render.py:374-406 | unprinted, known-defect, margin and comment lines say the text written on them; a margin that is no number ends the gate |
| `Directives.AmountReads` | scripts/check-render.py:388-399 | an amount line says the path and the number written on it; a number below zero ends the gate |
| `Directives.FixturePathsCompose` | scripts/check-render.py:357 | identifiers are fixture paths, and so are the rows and the members of a fixture path |
| `Directives.FixturePathsDecompose` | scripts/check-render.py:357 | and nothing else is |
| `Directives.DeclaredIsWhatLinesSay` | scripts/check-render.py:360-415 | what the gate goes on with, label by label, path by path and amount by amount, is what some line says |
| `Directives.DiesIff` | scripts/check-render.py:360-415 | the gate dies if and only if a line is malformed, no margin is declared, or two are |
| `Expectations.ApplyDefects` | scripts/check-render.py:404-414 | a defect that names a fixture path is excused there, any other is dropped from the labels |
| `Expectations.LabelsReadAreClean` | scripts/check-render.py:370-415 | whatever the files, a label the gate looks for is one trimmed non-empty line, is no comment or directive, and is no quoted defect |
| `Expectations.RoundTripIffClean` | scripts/check-render.py:360-415 | labels written one per line with the margin are read back exactly if and only if all are clean |
| `AutonomyPolicy.NamesAndModes` | src/agent/AutonomyPolicy.hpp:35-55 | parsing and naming modes are inverse, and every other name is refused |
| `AutonomyPolicy.Evaluate` | src/agent/AutonomyPolicy.hpp:116-167 | the successive checks give the join of the independent checks, and the reason of the last one that failed |
| `AutonomyPolicy.VerdictIsOrderFree` | src/agent/AutonomyPolicy.hpp:95-167 | the verdict is the strictest of the checks in any order and multiplicity |
| `AutonomyPolicy.TighterIsExact` | src/agent/AutonomyPolicy.hpp:116-167 | a policy is never weaker than another on any action if and only if its mode is stricter or each bound is tighter; an emptied allowlist is not |
| `AutonomyPolicy.AutomaticMeansWithinBounds` | src/agent/AutonomyPolicy.hpp:116-167 | automatic if and only if a policy exists, is automatic and every bound it sets is met: an amount present and within the maximum, a listed counterparty, no other document type, prior approval where asked for |
| `AutonomyPolicy.ReasonsAreTrue` | src/agent/AutonomyPolicy.hpp:116-167 | each reason is given exactly in its case: the policy's mode, or the last bound the action does not meet |
| `AgentRepository.Repository.StartRun` | src/agent/AgentRepository.hpp:77-87 | a new row with zero usage and no steps |
| `AgentRepository.Repository.FinishRun` | src/agent/AgentRepository.hpp:91-107 | changes the status of a run of this organisation and nothing else |
| `AgentRepository.Repository.AddUsage` | src/agent/AgentRepository.hpp:112-129 | adds to the counters of one run, never overwrites |
| `AgentRepository.CostOfSpending` | src/agent/AgentRepository.hpp:140-155 | usage raises the sum of its run's organisation, if the run is recent enough, by exactly its cost, and no other sum |
| `AgentRepository.CostOfStarting` | src/agent/AgentRepository.hpp:140-155 | an empty table has cost nothing, and a row adds its cost to its own organisation's sum |
| `AgentRepository.Repository.AppendStep` | src/agent/AgentRepository.hpp:159-179 | extends the history of one run by one step and keeps all numbers consecutive |
| `AgentRepository.MaxSeqCounts` | src/agent/AgentRepository.hpp:168 | the highest number of a run equals the number of its steps, so numbers are 1, 2, ... without gaps |
| `AgentRepository.Repository.RequestApproval` | src/agent/AgentRepository.hpp:229-246 | one pending request more, with its description |
| `AgentRepository.Repository.Decide` | src/agent/AgentRepository.hpp:251-271 | succeeds exactly on a pending request of the same organisation, writing status and decider together |
| `AgentRepository.FirstDecisionStands` | src/agent/AgentRepository.hpp:251-271 | of any sequence of decisions only the first has an effect |
| `AgentRepository.ParseUuidArray` | src/agent/AgentRepository.hpp:366-383 | the character loop computes the scan the round trip is about |
| `AgentRepository.ArrayRoundTrip` | src/agent/AgentRepository.hpp:366-383 | a printed array of plain non-empty items reads back as those items |
| `AgentRepository.ItemsArePlain` | src/agent/AgentRepository.hpp:366-383 | whatever the text, no item read is empty or holds a brace, a quote or a comma |
| `AgentRun.ToolRegistry.Add` | src/agent/ToolRegistry.hpp:100-103 | the first registration of a name stays |
| `AgentRun.ToolRegistry.Execute` | src/agent/ToolRegistry.hpp:120-154 | known tool, then matrix, then policy, then handler; the handler is invoked exactly on an executed outcome |
| `AgentRun.HumanDiff` | src/agent/Orchestrator.hpp:90-99 | the description of a call for its approver, or the exception that printing a negative amount throws |
| `AgentRun.PerformRun` | src/agent/Orchestrator.hpp:106-219 | the run's row, steps, approval request, handler invocations, finish and result are those of its ending, an exception on the way to the approval included; other runs are untouched |
| `AgentRun.OnlyPermittedHandlersRun` | src/agent/Orchestrator.hpp:177-195 | for every model, the j-th handler invocation is the j-th executed tool_call step, of a registered tool, permitted by the matrix, with an auto verdict of the policy in force, within every bound of it |
| `AgentRun.OutcomeIff` | src/agent/ToolRegistry.hpp:120-154 | executed, refused or needing approval, read off tools, matrix, policy and what the tool's own extractor says of the arguments; executed with the handler's result |
| `AgentRun.InvocationsKeepBounds` | src/agent/ToolRegistry.hpp:143-152 | for every model, each handler ran with the amount, counterparty, document type and approval its extractor reads within the policy in force; without extractor, under no such bound |
| `AgentRun.TraceIsTheConversation` | src/agent/Orchestrator.hpp:117-219 | for every model, the trace records every reply with the number of its calls and every call in order, up to the one the run stops at |
| `AgentRun.ExecutedStepsAreInvocations` | src/agent/Orchestrator.hpp:177-195 | the executed steps and the invocations are the same list, and every recorded decision is the one the registry took |
| `AgentRun.ApprovalStopsTheRun` | src/agent/Orchestrator.hpp:186-197 | a needs-approval outcome is the last step of its run, and is what was asked for unless its amount is negative, when nothing was asked for |
| `AgentRun.LeftRunningIffNegativeAmount` | src/agent/Orchestrator.hpp:189-196 | for every model, a run ends still running if and only if it came to a call that needs approval with a negative integer amount |
| `AgentRun.FinishedOnceIffDescribable` | src/agent/Orchestrator.hpp:106-219 | the run is finished, and finished once, if and only if it came to no such call; otherwise neither finish nor request is written |
| `AgentRun.NegativeAmountStrandsTheRun` | src/agent/Orchestrator.hpp:193 | one reply asking to pay -1 tiyn under no policy leaves the run running |
| `AgentRun.NoModelStrandsIff` | src/agent/Orchestrator.hpp:106-219 | for given tools, matrix and policies, no model's run is left running if and only if no call that needs approval at an attainable policy lookup holds a negative amount, or no model is called |
| `AgentRun.FixedPoliciesDecideAtOnce` | src/agent/Orchestrator.hpp:177-196 | with policies that do not change, what decides it is whether such a call exists at the first lookup |
| `AgentRun.RunIsBoundedAndAccounted` | src/agent/Orchestrator.hpp:117-219 | model calls stay within the limit, none with an exhausted budget, tokens are the sum over replies, and the run succeeds if and only if a non-empty reply without tool calls arrived |
| `AgentRun.RunsDoNotSpend` | src/agent/Orchestrator.hpp:117-172 | a run leaves the cost of every organisation and period as it was, so the gate's answer never depends on earlier runs |
| `Money.Format` | scripts/check-render.py:319-341 | the divmod loop prints the grouped form |
| `Money.FormatTiynRu` | src/money/MoneyFormat.hpp:31-56 | the right-to-left loop prints the same grouped form and refuses negative amounts |
| `Money.PrintedSaysTheAmount` | scripts/check-render.py:232-341 | a printed amount matches the gate's grammar, and without separators is the decimal of its tiyn padded to three digits |
| `Money.PrintedInjective` | scripts/check-render.py:319-341 | two amounts never print alike, signs included |
| `Money.PrintedRange` | scripts/check-render.py:232 | the strings of the grammar without superfluous zeros are exactly the printed amounts |
| `AmountOracle.CheckAmounts` | scripts/check-render.py:418-495 | a failure is reported if and only if it is one of the five kinds, at exactly the paths that deserve it |
| `AmountOracle.HiddenSibling` | scripts/check-render.py:418-495 | with 1 declared at rows[].sum and 2 at rows[].sum_tiyn, an integer 5 in the column of "0,02" at rows[].sum_tiyn is not reported |
| `AmountOracle.SiblingReportIsExact` | scripts/check-render.py:418-495 | on any fixture a sibling disagreement is reported exactly if it is there, unless the sibling path is declared and its strings are right |
| `AmountOracle.SiblingCheckIsExactIff` | scripts/check-render.py:418-495 | the report is exact on every fixture if and only if path and sibling path are not both declared |
| `AmountOracle.SilenceMeansAmountsAreRight` | scripts/check-render.py:418-495 | no failure means the strings at a declared path decode to exactly the declared multiset, the integers beside it, unless hidden, are the declared ones, and nothing amount-like is undeclared or in machine form |
| `AmountOracle.SilentIff` | scripts/check-render.py:418-495 | the check is silent if and only if every declared path shows its amounts, its sibling integers agree unless hidden, and no scalar is in machine form or undeclared |
| `AmountOracle.MachineMoneyIff` | scripts/check-render.py:236 | the machine form is an optional minus, digits, a point and two digits |
| `AmountOracle.ValuesCounted` | scripts/check-render.py:424-430 | a value stands at a path as often as the pair is in the fixture |
| `AmountOracle.StringsCounted` | scripts/check-render.py:431-439 | a string is compared as often as it is there, unless it is blank |
| `AmountOracle.IntegersCounted` | scripts/check-render.py:463-466 | an integer beside a path counts as often as it is there |
| `StrikeThrough.IsStruck` | scripts/check-render.py:783-811 | with every pixel access in range, a word is flagged if and only if some column has ink above and below the maximal dark run around the first row dark across the box and its overhang |
| `StrikeThrough.RuleIsUnique` | scripts/check-render.py:787-800 | that row and run are unique, so the definition does not depend on the scan |
| `StrikeThrough.OneSidedInkIsNotStruck` | scripts/check-render.py:801-811 | a word whose columns have ink on one side of the rule only is never flagged |
| `StrikeThrough.MissedIffFirstRuleIsOnTop` | scripts/check-render.py:753-811 | a word that some full-width row crosses with ink on both sides is missed exactly if the first rule has no ink above it and a second rule lies below it with ink below that |
| `StrikeThrough.StruckIsStruckBySome` | scripts/check-render.py:753-811 | whatever is flagged is crossed by some such row, and where none crosses the box there is nothing to miss |
| `StrikeThrough.RuleOnTopHidesRuleThrough` | scripts/check-render.py:787-811 | a rule along the top of the box hides the rule through the word |
| `StrikeThrough.CheckStruckThrough` | scripts/check-render.py:753-830 | the findings are the struck words in order, the first eight listed and the rest summed up in one line |
| `StrikeThrough.SilentIffNoneStruck` | scripts/check-render.py:753-830 | what is reported is empty if and only if no word on any page is struck |
| `StrikeThrough.ClippingIsExact` | scripts/check-render.py:775-783 | the area of a word is the page's columns and rows its box covers and its reach the columns within the overhang of them; a word is skipped if and only if at most one column or one row is left |
| `StrikeThrough.FlaggedIff` | scripts/check-render.py:775-811 | a word is flagged if and only if the area its box covers has two columns and two rows and is struck |
| `StrikeThrough.FlaggedIsCrossed` | scripts/check-render.py:783-786 | a flagged word has a row inside its box inked at every column of the page within the overhang |
| `StrikeThrough.StruckWordsAre` | scripts/check-render.py:766-829 | the struck words are listed each once, page by page and word by word |
| `OneShotTokens.UsedTokens.ConsumeOnce` | src/api/AccountController.hpp:389-405 | true exactly when the row is new and the reply arrived; a failed or lost write answers false |
| `OneShotTokens.UsedTokens.Reap` | src/core/Core.hpp:588-603 | deletes exactly the rows that expired before the statement's transaction began, or nothing on an error |
| `OneShotTokens.UnexpiredUpToLastInstant` | src/security/Tokens.hpp:184-188 | the verifier's clock of whole seconds accepts up to the end of the second of expiry, no less and no more |
| `OneShotTokens.WhenAConsumeIsAccepted` | src/api/AccountController.hpp:389-405 | in any run a consume is accepted exactly when the reply arrives and the token was never inserted or a reaper that began after its row's expiry has run since |
| `OneShotTokens.AcceptedAtMostOnce` | src/api/AccountController.hpp:389-405 | with concurrent handlers, the reaper, lost replies and errors, a token whose guard reaches the deadline is accepted at most once if consumed by then |
| `OneShotTokens.GuardMustCoverDeadline` | src/api/AccountController.hpp:389-405 | one acceptance in every run up to a deadline is what a guard up to the deadline buys, no more and no less |
| `OneShotTokens.GuardMustCoverLifetime` | src/security/Tokens.hpp:100-188 | if handlers consume while the verifier still accepts, one acceptance in every run if and only if the guard reaches the verifier's last instant |
| `OneShotTokens.GuardMustCoverLifetimeAndDelay` | src/api/AccountController.hpp:389-405 | if handlers consume within a delay after verifying, one acceptance in every run if and only if the guard covers that delay after the verifier's last instant |
| `OneShotTokens.IssuedTokensAreOneShot` | src/api/AccountController.hpp:103-107 | a token of the confirm, reset or change-email route is accepted at most once by a deadline, if and only if that is within its lifetime counted from the instant of signing; the verifier goes on accepting up to a second longer |
| `OneShotTokens.RoutesTolerateNoDelay` | src/api/AccountController.hpp:103-107 | on each of the three routes handlers that consume within a delay use a token at most once if and only if the delay is zero and the token was signed on the last tick of a second |
| `OneShotTokens.NoDelayReplays` | src/api/AccountController.hpp:181-188 | a reset token accepted twice by handlers that consume at the instant they verify |
| `OneShotTokens.GuardNeedsOneMoreSecond` | src/api/AccountController.hpp:389-405 | on a clock finer than the second a guard is enough for every token and any delay up to so many seconds if and only if it is at least lifetime, one second and those seconds |
| `OneShotTokens.StalledHandlerReplays` | src/api/AccountController.hpp:389-405 | however long the guard, a handler that stalls between verifying and consuming has its token accepted twice |
| `QueueGauge.GaugeTask.Publish` | src/core/Core.hpp:463-469 | the first loop sets every listed type, remembers it and sums the depths |
| `QueueGauge.GaugeTask.ResetDrained` | src/core/Core.hpp:470-473 | the second loop zeroes exactly the remembered types that are not listed |
| `QueueGauge.GaugeTask.Tick` | src/core/Core.hpp:454-475 | one tick of either gauge, or nothing while the services are down |
| `QueueGauge.GaugesFollowTheQueues` | src/core/Core.hpp:438-510 | after any run every type ever seen shows its current depth and `_total` their sum, if and only if no type named `_total` spoils it |
| `QueueGauge.TotalCollides` | src/core/Core.hpp:454-475 | one job of a type `_total` and two of another: the gauge shows three for both |
| `QueueGauge.CollisionShows` | src/core/Core.hpp:474 | such a type spoils it exactly when another queue is not empty |
| `PathNormaliser.IsUuidSegment` | src/api/RequestUtils.hpp:24-37 | decides the 8-4-4-4-12 hexadecimal shape |
| `PathNormaliser.Split` | src/api/RequestUtils.hpp:104-116 | the index loop yields the non-empty runs between slashes |
| `PathNormaliser.NormalizePathForMetrics` | src/api/RequestUtils.hpp:102-163 | the two loops compute the normal form |
| `PathNormaliser.OutputSegments` | src/api/RequestUtils.hpp:138-162 | the result has as many segments as the path, none empty, all-digit or uuid-shaped: a token as `:token`, an id as `:id`, any other as it was |
| `PathNormaliser.NormalisingTwiceIsNormalisingOnce` | src/api/RequestUtils.hpp:102-163 | normalising is idempotent |
| `PathNormaliser.IdsAndTokensDoNotShow` | src/api/RequestUtils.hpp:130-158 | paths that differ only in ids and account tokens have one normal form |
| `PathNormaliser.TokenRoutesAreFound` | src/api/RequestUtils.hpp:118-136 | a token is looked for at the end of the four account routes, with and without a version segment, and nowhere else |
| `PathNormaliser.TokenDoesNotShow` | src/api/RequestUtils.hpp:142-145 | replacing the token changes nothing, and `:token` stands in its place |
| `PathNormaliser.OnlyIdsAndTokensAreMerged` | src/api/RequestUtils.hpp:138-162 | two paths of one normal form agree in every segment that is no id and no token |

## Left out

- HTTP handlers, middleware, metrics backends, Redis, Kafka, S3, mail and telemetry: only the effect a core needs is modelled (a table, a lock, a gauge map).
- `ConnectionPool::shutdown`, statement timeouts and the length of waits: time enters the pool only as a flag that the deadline has passed.
- `ConnectionPool.DatabaseManager.PickReplicaPool`: does not model wrap-around of the counter at the machine word, where one round of the rotation is cut short.
- Scanning the migrations directory: file names, the regular expression and the sort are not modelled; the runner takes the list sorted by version, equal versions in any order. Retry of a failed transaction is an abort event.
- `MergePatch.Input.MergeAllowedExtra`: takes the patch as an object, as the callers' body parser ensures; the text of the 422 reply is its path.
- `Errors` collector of the validation header: a list append, with nothing to prove beyond it.
- `BlockCompiler.Compile`: blocks arrive typed, so JSON type exceptions do not arise; error messages are left out, codes are kept; the seven comment lines at the head of the source are left out; text is a sequence of characters, not of UTF-8 bytes.
- `BlockCompiler.IsValidField`: counts characters where the source counts bytes; a name on which the two differ is refused either way.
- Typst beyond the emitted subset: the lexer knows `#name`, string literals with the two escapes that are emitted, and plain text; layout and fonts are not modelled.
- `Expectations.ReadExpectations`: the margin stays text once it is known to be a number, digits are ASCII digits where Python takes any Unicode digit, and file and line of an entry are not kept.
- The other layers of the render gate: flattening of fixtures, PDF extraction, Unicode folding and rasterising pages.
- `StrikeThrough.CheckStruckThrough`: word boxes and the overhang arrive as pixel numbers; scaling from points by floating-point arithmetic is not modelled, nor are the figures in the messages.
- `AmountOracle.CheckAmounts`: digits are ASCII digits where the regular expressions take any Unicode digit; the order and wording of the failures are left to the helper functions, and the contract says which failures occur.
- `AgentRun.PerformRun`: the messages sent to the model, tool descriptions and result texts are not modelled; a model is any sequence of answers, tool handlers and argument extractors are total functions although the loop would not catch their exceptions, and the database calls succeed.
- `ConnectionPool.PooledConnection.constructor`: takes the connection that acquire returned instead of calling it, because a constructor of the model cannot fail.
- `AgentRepository.Repository.StartRun`: the columns trigger and started_by are not kept.
- `AgentRepository.Repository.FinishRun`: the columns summary and error are not kept.
- `AgentRepository.Repository.Decide`: the comment and the time of the decision are not kept.
- `AgentRun.ToolRegistry.Execute`: an extractor or a handler that throws is not modelled.
- `AgentRepository.Repository.AppendStep`: serial histories only; concurrent numbering depends on a unique key and isolation level that are outside these sources.
- `AutonomyPolicy.Evaluate`: reasons are tags instead of sentences.
- `OneShotTokens.UsedTokens.ConsumeOnce`: tokens stand for their SHA-256 hashes, and the web server and database read one clock that does not run backwards, the server in whole seconds and the database in ticks; instants are counted from the epoch on.
- `QueueGauge.GaugeTask.Tick`: depths are integers; conversion to floating point is not modelled.
- Payroll, tax, journal, document and job services, frontend, configuration, password, JWT and egress checks.
